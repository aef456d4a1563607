/**
 * `ForwardExchangeRate`: a spot exchange rate plus forward points (in pips,
 * 1/10000 of a unit) for a tenor, either quoted directly or derived by
 * chaining two forward rates that share a currency.
 */
module ForwardExchangeRates {
  import opened Common
  import opened Currencies
  import opened Time
  import opened ExchangeRates

  /** Forward points are quoted in 1/10000 of the rate's unit. */
  const PipsPerUnit: real := 10000.0

  /** The all-in rate of a spot rate and forward points. */
  function AllInRate(spot: real, points: real): (r: real)
    ensures (r - spot) * PipsPerUnit == points
    ensures points > 0.0 ==> r > spot
    ensures points < 0.0 ==> r < spot
  {
    spot + points / PipsPerUnit
  }

  datatype ForwardExchangeRate =
    | DirectForward(spot: ExchangeRate, forwardPoints: real, tenor: Period)
    | DerivedForward(spot: ExchangeRate, forwardPoints: real, tenor: Period,
                     first: ForwardExchangeRate, second: ForwardExchangeRate)
  {
    function Source(): Currency { spot.source }

    function Target(): Currency { spot.target }

    function Type(): RateType {
      if DirectForward? then Direct else Derived
    }

    function SpotExchangeRate(): ExchangeRate { spot }

    function SpotRate(): real { spot.rate }

    /** `forwardRate()`: the all-in forward rate. */
    function ForwardRate(): (r: real)
      ensures r == SpotRate() <==> forwardPoints == 0.0
      ensures r > SpotRate() <==> forwardPoints > 0.0
    {
      AllInRate(spot.rate, forwardPoints)
    }

    predicate Quotes(c: Currency) {
      c == Source() || c == Target()
    }
  }

  /** `ForwardExchangeRate(tenor)`: default spot rate and Null forward points. */
  function DefaultForward(tenor: Period): (r: ForwardExchangeRate)
    ensures r.DirectForward? && r.tenor == tenor
    ensures r.spot == DefaultExchangeRate && r.forwardPoints == NullReal
  {
    DirectForward(DefaultExchangeRate, NullReal, tenor)
  }

  /** Both constructors give a direct rate with the tenor they were given; the inspectors read the spot rate. */
  lemma ConstructorsAreDirect(spot: ExchangeRate, points: real, tenor: Period)
    ensures var d := DefaultForward(tenor);
            d.Type() == Direct && d.tenor == tenor && d.forwardPoints == NullReal
            && d.SpotExchangeRate() == DefaultExchangeRate
    ensures var r := DirectForward(spot, points, tenor);
            r.Type() == Direct && r.tenor == tenor && r.forwardPoints == points
            && r.Source() == spot.source && r.Target() == spot.target && r.SpotRate() == spot.rate
  {
  }

  /** The forward points are exactly the distance between forward and spot rate, in pips. */
  lemma ForwardRateAndPoints(r: ForwardExchangeRate)
    ensures (r.ForwardRate() - r.SpotRate()) * PipsPerUnit == r.forwardPoints
    ensures r.forwardPoints == 0.0 <==> r.ForwardRate() == r.SpotRate()
  {
  }

  /** Every directly quoted forward rate inside `r` can be divided by. */
  predicate Invertible(r: ForwardExchangeRate) {
    match r
    case DirectForward(_, _, _) => r.ForwardRate() != 0.0
    case DerivedForward(_, _, _, first, second) => Invertible(first) && Invertible(second)
  }

  /** `ForwardExchangeRate::exchange`: converts `amount` at the forward rate. */
  function Exchange(r: ForwardExchangeRate, amount: Money): (m: Result<Money, FxError>)
    requires Invertible(r)
    ensures r.DirectForward? && !r.Quotes(amount.currency) ==> m.Failure? && m.error == IncompatibleCurrency
    ensures r.DerivedForward? && !r.first.Quotes(amount.currency) && !r.second.Quotes(amount.currency)
            ==> m.Failure? && m.error == IncompatibleCurrency
  {
    match r
    case DirectForward(spot, _, _) =>
      if amount.currency == spot.source then Success(Money(amount.value * r.ForwardRate(), spot.target))
      else if amount.currency == spot.target then Success(Money(amount.value / r.ForwardRate(), spot.source))
      else Failure(IncompatibleCurrency)
    case DerivedForward(_, _, _, first, second) =>
      if first.Quotes(amount.currency) then
        match Exchange(first, amount)
        case Success(m) => Exchange(second, m)
        case Failure(e) => Failure(e)
      else if second.Quotes(amount.currency) then
        match Exchange(second, amount)
        case Success(m) => Exchange(first, m)
        case Failure(e) => Failure(e)
      else Failure(IncompatibleCurrency)
  }

  /** A direct forward rate applied to an amount and then to the result gives the amount back. */
  lemma ExchangeRoundTrip(r: ForwardExchangeRate, v: real)
    requires r.DirectForward? && r.ForwardRate() != 0.0 && r.Source() != r.Target()
    ensures var there := Exchange(r, Money(v, r.Source()));
            there.Success? && there.value == Money(v * r.ForwardRate(), r.Target())
    ensures var back := Exchange(r, Exchange(r, Money(v, r.Source())).value);
            back.Success? && back.value == Money(v, r.Source())
    ensures var back := Exchange(r, Exchange(r, Money(v, r.Target())).value);
            back.Success? && back.value == Money(v, r.Target())
  {
    var f := r.ForwardRate();
    assert v * f / f == v;
    assert v / f * f == v;
  }

  /** A forward rate seen as a spot rate quoted at its forward rate, legs included. */
  function AtForward(r: ForwardExchangeRate): (s: ExchangeRate)
    ensures s.source == r.Source() && s.target == r.Target() && s.rate == r.ForwardRate()
    ensures s.Type() == r.Type()
  {
    match r
    case DirectForward(spot, _, _) => DirectRate(spot.source, spot.target, r.ForwardRate())
    case DerivedForward(spot, _, _, first, second) =>
      DerivedRate(spot.source, spot.target, r.ForwardRate(), AtForward(first), AtForward(second))
  }

  /**
   * Exchanging through a forward rate is exchanging through the spot-rate
   * algebra at the forward rates, for direct and derived rates alike.
   */
  lemma {:induction false} ExchangeIsSpotExchangeAtForward(r: ForwardExchangeRate, amount: Money)
    requires Invertible(r)
    ensures ExchangeRates.Invertible(AtForward(r))
    ensures Exchange(r, amount) == ExchangeRates.Exchange(AtForward(r), amount)
    decreases r
  {
    match r
    case DirectForward(_, _, _) =>
      var (x, y) := (Exchange(r, amount), ExchangeRates.Exchange(AtForward(r), amount));
      assert x.Success? == y.Success?;
      assert x.Success? ==> x.value == y.value;
      assert x.Failure? ==> x.error == y.error;
    case DerivedForward(_, _, _, first, second) =>
      ExchangeIsSpotExchangeAtForward(first, amount);
      ExchangeIsSpotExchangeAtForward(second, amount);
      if first.Quotes(amount.currency) {
        if Exchange(first, amount).Success? {
          ExchangeIsSpotExchangeAtForward(second, Exchange(first, amount).value);
        }
      } else if second.Quotes(amount.currency) {
        if Exchange(second, amount).Success? {
          ExchangeIsSpotExchangeAtForward(first, Exchange(second, amount).value);
        }
      }
  }

  /** `chain` divides by spot and forward rates only when the tenors match and a currency is shared. */
  predicate ChainDefined(r1: ForwardExchangeRate, r2: ForwardExchangeRate) {
    r1.tenor == r2.tenor && Pairing(r1.spot, r2.spot).Some? ==>
      && CombineDefined(Pairing(r1.spot, r2.spot).value, r1.SpotRate(), r2.SpotRate())
      && CombineDefined(Pairing(r1.spot, r2.spot).value, r1.ForwardRate(), r2.ForwardRate())
  }

  /** The forward points of a chained rate, by the case of the shared currency. */
  function ChainedPoints(c: ChainCase, r1: ForwardExchangeRate, r2: ForwardExchangeRate): real
    requires CombineDefined(c, r1.SpotRate(), r2.SpotRate())
    requires CombineDefined(c, r1.ForwardRate(), r2.ForwardRate())
  {
    match c
    case TargetSource =>
      r1.SpotRate() * r2.forwardPoints + r2.SpotRate() * r1.forwardPoints
      + r1.forwardPoints * r2.forwardPoints / PipsPerUnit
    case _ =>
      (Combine(c, r1.ForwardRate(), r2.ForwardRate()) - Combine(c, r1.SpotRate(), r2.SpotRate())) * PipsPerUnit
  }

  /** `ForwardExchangeRate::chain`. */
  function Chain(r1: ForwardExchangeRate, r2: ForwardExchangeRate): (r: Result<ForwardExchangeRate, FxError>)
    requires ChainDefined(r1, r2)
    ensures r1.tenor != r2.tenor ==> r.Failure? && r.error == TenorMismatch
    ensures r1.tenor == r2.tenor ==>
              (r.Failure? <==> Pairing(r1.spot, r2.spot).None?)
              && (r.Failure? ==> r.error == NotChainable)
    ensures r.Success? ==>
              && r.value.DerivedForward? && r.value.tenor == r1.tenor
              && r.value.first == r1 && r.value.second == r2
              && ExchangeRates.Chain(r1.spot, r2.spot).Success?
              && r.value.spot == ExchangeRates.Chain(r1.spot, r2.spot).value
  {
    if r1.tenor != r2.tenor then Failure(TenorMismatch)
    else
      match ExchangeRates.Chain(r1.spot, r2.spot)
      case Failure(e) => Failure(e)
      case Success(chainedSpot) =>
        var points := ChainedPoints(Pairing(r1.spot, r2.spot).value, r1, r2);
        Success(DerivedForward(chainedSpot, points, r1.tenor, r1, r2))
  }

  /** (s1 + p1/K)(s2 + p2/K) expanded. */
  lemma ProductOfAllInRates(s1: real, p1: real, s2: real, p2: real)
    ensures AllInRate(s1 * s2, s1 * p2 + s2 * p1 + p1 * p2 / PipsPerUnit)
            == AllInRate(s1, p1) * AllInRate(s2, p2)
  {
    var k := PipsPerUnit;
    calc {
      AllInRate(s1, p1) * AllInRate(s2, p2);
      (s1 + p1 / k) * (s2 + p2 / k);
      s1 * s2 + s1 * (p2 / k) + (p1 / k) * s2 + (p1 / k) * (p2 / k);
      { assert (p1 / k) * (p2 / k) == p1 * p2 / k / k; }
      s1 * s2 + (s1 * p2 + s2 * p1 + p1 * p2 / k) / k;
    }
  }

  /**
   * The chained rate's forward rate combines the legs' forward rates by the
   * same rule that combines their spot rates (in the target/source case the
   * points formula reduces to the product of the all-in rates).
   */
  lemma ChainedForwardRate(r1: ForwardExchangeRate, r2: ForwardExchangeRate)
    requires ChainDefined(r1, r2) && Chain(r1, r2).Success?
    ensures var c := Pairing(r1.spot, r2.spot).value;
            Chain(r1, r2).value.ForwardRate() == Combine(c, r1.ForwardRate(), r2.ForwardRate())
  {
    var c := Pairing(r1.spot, r2.spot).value;
    var chained := Chain(r1, r2).value;
    assert chained.spot.rate == Combine(c, r1.SpotRate(), r2.SpotRate());
    if c == TargetSource {
      ProductOfAllInRates(r1.SpotRate(), r1.forwardPoints, r2.SpotRate(), r2.forwardPoints);
    }
  }

  /**
   * A rate chained from two direct legs between distinct currencies converts
   * an amount in its source currency at its own forward rate.
   */
  lemma ChainedExchangeAtForwardRate(r1: ForwardExchangeRate, r2: ForwardExchangeRate, v: real)
    requires r1.DirectForward? && r2.DirectForward? && Invertible(r1) && Invertible(r2)
    requires r1.Source() != r1.Target() && r2.Source() != r2.Target()
    requires ChainDefined(r1, r2) && Chain(r1, r2).Success?
    ensures Invertible(Chain(r1, r2).value)
    ensures var c := Chain(r1, r2).value;
            var m := Exchange(c, Money(v, c.Source()));
            m.Success? && m.value == Money(v * c.ForwardRate(), c.Target())
  {
    var c := Chain(r1, r2).value;
    var a1, a2 := AtForward(r1), AtForward(r2);
    ChainAtForward(r1, r2);
    ExchangeRates.ChainedExchangeAtChainedRate(a1, a2, v);
    ExchangeIsSpotExchangeAtForward(c, Money(v, c.Source()));
  }

  /** Chaining commutes with reading rates at their forward rates. */
  lemma ChainAtForward(r1: ForwardExchangeRate, r2: ForwardExchangeRate)
    requires r1.DirectForward? && r2.DirectForward? && Invertible(r1) && Invertible(r2)
    requires r1.Source() != r1.Target() && r2.Source() != r2.Target()
    requires ChainDefined(r1, r2) && Chain(r1, r2).Success?
    ensures DirectTriangle(AtForward(r1), AtForward(r2))
    ensures ExchangeRates.Chain(AtForward(r1), AtForward(r2)).Success?
    ensures AtForward(Chain(r1, r2).value) == ExchangeRates.Chain(AtForward(r1), AtForward(r2)).value
  {
    var a1, a2 := AtForward(r1), AtForward(r2);
    ChainedForwardRate(r1, r2);
    assert Pairing(a1, a2) == Pairing(r1.spot, r2.spot);
  }

  /**
   * `ForwardExchangeRate::inverse` as written: the new forward points are
   * (1/forwardRate - inverse spot) DIVIDED by 10000.
   */
  function Inverse(r: ForwardExchangeRate): (i: ForwardExchangeRate)
    requires r.SpotRate() != 0.0 && r.ForwardRate() != 0.0
    ensures i.DirectForward? && i.tenor == r.tenor
    ensures i.Source() == r.Target() && i.Target() == r.Source()
    ensures i.SpotRate() * r.SpotRate() == 1.0
  {
    var inverseSpot := ExchangeRates.Inverse(r.spot);
    var inverseFwd := 1.0 / r.ForwardRate();
    DirectForward(inverseSpot, (inverseFwd - inverseSpot.rate) / PipsPerUnit, r.tenor)
  }

  /** The as-written inverse gives the reciprocal forward rate only when there are no forward points. */
  lemma InverseAsWrittenMissesReciprocal(r: ForwardExchangeRate)
    requires r.SpotRate() != 0.0 && r.ForwardRate() != 0.0
    ensures Inverse(r).ForwardRate() == 1.0 / r.ForwardRate() <==> r.forwardPoints == 0.0
  {
    var s, f := r.SpotRate(), r.ForwardRate();
    var k := PipsPerUnit;
    var d := 1.0 / f - 1.0 / s;
    assert Inverse(r).SpotRate() == 1.0 / s;
    assert Inverse(r).ForwardRate() == 1.0 / s + d / k / k;
    assert Inverse(r).ForwardRate() - 1.0 / f == d / k / k - d;
    assert d / k / k - d == d * (1.0 - k * k) / (k * k);
    assert d == 0.0 <==> f == s;
  }

  /** The example of the flat-quote scenario: 1.1351 spot and 45 points. */
  lemma InverseAsWrittenCounterexample()
    ensures var r := DirectForward(DirectRate(Currency("EUR"), Currency("USD"), 1.1351), 45.0, EmptyPeriod);
            Inverse(r).ForwardRate() != 1.0 / r.ForwardRate()
  {
    var r := DirectForward(DirectRate(Currency("EUR"), Currency("USD"), 1.1351), 45.0, EmptyPeriod);
    InverseAsWrittenMissesReciprocal(r);
  }

  /** The intended inverse: forward points (1/forwardRate - inverse spot) MULTIPLIED by 10000. */
  function InverseCorrected(r: ForwardExchangeRate): (i: ForwardExchangeRate)
    requires r.SpotRate() != 0.0 && r.ForwardRate() != 0.0
    ensures i.DirectForward? && i.tenor == r.tenor
    ensures i.Source() == r.Target() && i.Target() == r.Source()
    ensures i.SpotRate() * r.SpotRate() == 1.0
    ensures i.ForwardRate() * r.ForwardRate() == 1.0
  {
    var inverseSpot := ExchangeRates.Inverse(r.spot);
    var inverseFwd := 1.0 / r.ForwardRate();
    DirectForward(inverseSpot, (inverseFwd - inverseSpot.rate) * PipsPerUnit, r.tenor)
  }

  /** Inverting a direct forward rate twice with the intended inverse gives it back. */
  lemma InverseCorrectedRoundTrip(r: ForwardExchangeRate)
    requires r.DirectForward? && r.SpotRate() != 0.0 && r.ForwardRate() != 0.0
    ensures var i := InverseCorrected(r);
            i.SpotRate() != 0.0 && i.ForwardRate() != 0.0 && InverseCorrected(i) == r
  {
    var i := InverseCorrected(r);
    var s, f := r.SpotRate(), r.ForwardRate();
    assert i.SpotRate() == 1.0 / s && i.ForwardRate() == 1.0 / f;
    ExchangeRates.InverseInvolutive(r.spot);
    assert 1.0 / (1.0 / f) == f && 1.0 / (1.0 / s) == s;
    assert InverseCorrected(i).forwardPoints == (f - s) * PipsPerUnit == r.forwardPoints;
  }
}
