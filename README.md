# FX forward valuation in Dafny

A Dafny model of the foreign-exchange-forward valuation slice of a QuantLib
fork:

- **Forward exchange rates** (`ForwardExchangeRates`): a spot `ExchangeRate`
  plus forward points in pips (1/10000 of a unit) for a tenor. The model covers
  the all-in forward rate, applying a rate to a cash amount in either
  direction, routing through the two legs of a derived rate, chaining two
  rates that share a currency (four cases, tested in a fixed order), and
  inversion.
- **The spot `ExchangeRate`** these are built on (`ExchangeRates`), reduced to
  what the forward code uses: direct or derived, `exchange`, `chain` and
  `inverse`. `ql/exchangerate.hpp` is not part of this model; its behaviour is
  taken from the rate formulas noted beside `ForwardExchangeRate::chain`.
- **The forward-points curve** (`FxForwardPointCurves`):
  `InterpolatedFxForwardPointTermStructure` as a class. Its `times`/`data`
  arrays are filled by the `initialize` loop, which also validates the quoted
  dates. Lookups are piecewise linear through the `(0, 0)` anchor and the
  quotes, and flat beyond the last quote (`Interpolation`).
- **The FX forward contract**:
  - `FxForwardContract`: the out-of-line file, with `FxTerms` and its EUR/USD
    rule, the constructors and `performCalculations`.
  - `FxForwardInstrument`: the newer header, with direction, `baseSign`,
    expiry, term notional and the results record.
  - `FxForwardInstrumentLegacy`: the older header, which the engine prices.
- **The flat-quote `ForwardPointsEngine`** (`ForwardPointsEngines`). It checks
  its discount curve first, then stores the valuation currency, the valuation
  date, the forward value `notional × (spot + points/10000 − contract rate)`
  and its discounted value.

Day counters, `Date + Period` and the discount function are parameters:

- `yearFraction: (Date, Date) -> real` on the curve;
- `(DayCounter, Date, Date) -> real` in the engine;
- `advance: (Date, Period) -> Date` for tenor dates;
- `discount: real -> real` on a `DiscountCurve`.

Where a property needs a day count that grows with the date, the lemma
requires it (`IncreasingFrom`). The evaluation date is a parameter of
`IsExpired` instead of the global settings object. Failures that the source
raises as exceptions are `Result`/`Option` values. `Null<Real>` is
`NullReal`, the largest finite single-precision float, which is the value
QuantLib uses for it.

Points where the code's behaviour is easy to misread, modelled as written:

- `ForwardExchangeRate::inverse` divides the new forward points by 10000
  (`ql/forwardexchangerate.cpp:84`), while `chain` multiplies its point
  differences by 10000 (`ql/forwardexchangerate.cpp:59-73`). See Findings.
- The engine's forward value is `Money × Real` on the base notional
  (`ql/pricingengines/fx/forwardpointsengine.cpp:44-45`), so it is in the
  base currency (EUR in the example), not the term currency.
- Both headers declare `ForeignExchangeForward` constructors but define
  neither, so the instrument models take the stored all-in rate as given,
  without any normalisation of its direction. The out-of-line constructor
  (`foreignexchangeforward.cpp:48-75`) takes a plain rate and two
  currencies, which matches neither header. It is modelled as written, as
  its own class.
- `forwardExchangeRate(t, extrapolate)` neither checks the range nor reads
  `extrapolate`.
- Inverting a forward rate twice is not the identity as written. The
  corrected inverse is proved to round-trip.

## Model

| member | source | states |
|---|---|---|
| Currencies.Money.Times | ql/pricingengines/fx/forwardpointsengine.cpp:44-45 | `Money × Real` keeps the currency and is zero exactly when the amount or the factor is zero |
| ExchangeRates.Exchange | ql/instruments/foreignexchangeforward.hpp:215-217 | applying a rate: an amount in neither currency (of a direct rate, or of both legs of a derived one) fails with IncompatibleCurrency; a source amount lands in the target currency and a target amount in the source currency |
| ExchangeRates.DirectExchangeRoundTrip | ql/instruments/foreignexchangeforward.hpp:215-217 | a direct rate turns v source units into v·rate target units, and applying it again to the result gives v source units back |
| ExchangeRates.DirectLeg | ql/forwardexchangerate.cpp:27-30 | a direct leg succeeds on either of its currencies: multiply from the source, divide from the target |
| ExchangeRates.DerivedLegs | ql/forwardexchangerate.cpp:34-39 | a derived rate applies the leg quoting the amount's currency first, and the other leg to the intermediate amount |
| ExchangeRates.Chain | ql/forwardexchangerate.cpp:52-74 | chaining fails (NotChainable) exactly when no currency is shared; otherwise gives a derived rate holding both legs, between the two unshared currencies, for each of the four cases in the order they are tested: source/source r2/r1 (r1 target to r2 target), source/target 1/(r1·r2) (r1 target to r2 source), target/source r1·r2 (r1 source to r2 target), target/target r1/r2 (r1 source to r2 source) |
| ExchangeRates.ChainedExchangeAtChainedRate | ql/forwardexchangerate.cpp:57-74 | a rate chained from two direct legs between distinct currencies converts a source amount at its own chained rate, in all four sharing cases |
| ExchangeRates.ChainedSourceSource | ql/forwardexchangerate.cpp:57-60 | source/source case of the above: the chained rate r2/r1 agrees with going through both legs |
| ExchangeRates.ChainedSourceTarget | ql/forwardexchangerate.cpp:61-65 | source/target case: 1/(r1·r2) agrees with going through both legs |
| ExchangeRates.ChainedTargetSource | ql/forwardexchangerate.cpp:66-70 | target/source case: r1·r2 agrees with going through both legs |
| ExchangeRates.ChainedTargetTarget | ql/forwardexchangerate.cpp:71-74 | target/target case: r1/r2 agrees with going through both legs |
| ExchangeRates.DivideTwice | ql/forwardexchangerate.cpp:62-65 | dividing by two non-zero rates in turn is multiplying by the reciprocal of their product |
| ExchangeRates.Inverse | ql/forwardexchangerate.cpp:82 | the inverse spot rate swaps the currencies, keeps the kind, and its rate times the original is 1 |
| ExchangeRates.InverseInvolutive | ql/forwardexchangerate.cpp:82 | inverting a spot rate twice gives it back |
| ForwardExchangeRates.ConstructorsAreDirect | ql/forwardexchangerate.hpp:90-108 | both constructors give a Direct rate with the given tenor; the default one has Null points and the default spot rate; source, target and spot rate are the spot rate's |
| ForwardExchangeRates.AllInRate | ql/forwardexchangerate.hpp:112-114 | spot plus points in pips: the difference to spot, times 10000, is the points, and the rate is above (below) spot when the points are positive (negative) |
| ForwardExchangeRates.ForwardExchangeRate.ForwardRate | ql/forwardexchangerate.hpp:112-114 | the forward rate equals the spot rate exactly when there are no points, and exceeds it exactly when the points are positive |
| ForwardExchangeRates.DefaultForward | ql/forwardexchangerate.hpp:90-92 | the default constructor: a Direct rate with the given tenor, the default spot rate and Null points |
| ForwardExchangeRates.ForwardRateAndPoints | ql/forwardexchangerate.hpp:112-114 | forward minus spot rate, in pips, is exactly the forward points; zero points iff forward rate equals spot rate |
| ForwardExchangeRates.Exchange | ql/forwardexchangerate.cpp:24-45 | an amount in neither currency (of a direct rate, or of both legs of a derived one) fails with IncompatibleCurrency; ExchangeIsSpotExchangeAtForward gives every other result |
| ForwardExchangeRates.ExchangeRoundTrip | ql/forwardexchangerate.cpp:27-30 | a direct forward rate converts v source units to v·forwardRate target units, and converting there and back returns the amount, from either side |
| ForwardExchangeRates.AtForward | ql/forwardexchangerate.cpp:24-45 | the bridge used by ExchangeIsSpotExchangeAtForward: the spot-rate view of a forward rate, with the same source, target and kind, quoting the forward rate |
| ForwardExchangeRates.ExchangeIsSpotExchangeAtForward | ql/forwardexchangerate.cpp:24-45 | exchanging through a forward rate, direct or derived at any depth, equals exchanging through spot rates quoted at the forward rates |
| ForwardExchangeRates.Chain | ql/forwardexchangerate.cpp:47-79 | different tenors fail with TenorMismatch before anything else; with equal tenors chaining fails exactly when the spot rates share no currency; success gives a Derived rate with r1's tenor, both legs, and the chained spot rate |
| ForwardExchangeRates.ProductOfAllInRates | ql/forwardexchangerate.cpp:66-69 | the target/source points formula s1·p2 + s2·p1 + p1·p2/10000 over spot s1·s2 is the product of the two all-in rates |
| ForwardExchangeRates.ChainedForwardRate | ql/forwardexchangerate.cpp:57-74 | the chained forward rate combines the legs' forward rates by the same rule as the spot rates, in every case |
| ForwardExchangeRates.ChainAtForward | ql/forwardexchangerate.cpp:52-74 | chaining then reading at forward rates equals reading at forward rates then chaining |
| ForwardExchangeRates.ChainedExchangeAtForwardRate | ql/forwardexchangerate.cpp:47-79 | a rate chained from two direct legs converts a source amount at its own forward rate |
| ForwardExchangeRates.Inverse | ql/forwardexchangerate.cpp:81-86 | as written: Direct, same tenor, currencies swapped, spot rate the reciprocal |
| ForwardExchangeRates.InverseAsWrittenMissesReciprocal | ql/forwardexchangerate.cpp:83-84 | as written, the inverse's forward rate is the reciprocal of the original's if and only if there are no forward points |
| ForwardExchangeRates.InverseAsWrittenCounterexample | ql/forwardexchangerate.cpp:84 | EUR/USD at 1.1351 with 45 points: the as-written inverse's forward rate is not 1/1.1396 |
| ForwardExchangeRates.InverseCorrected | ql/forwardexchangerate.cpp:81-86 | the intended inverse: as above, and its forward rate times the original's is 1 |
| ForwardExchangeRates.InverseCorrectedRoundTrip | ql/forwardexchangerate.cpp:81-86 | inverting a direct forward rate twice with the intended inverse gives it back |
| Interpolation.UpperBound | ql/termstructures/fxforwardpointtermstructure.hpp:346-347 | the first position whose time exceeds t: every earlier time is at most t |
| Interpolation.Locate | ql/termstructures/fxforwardpointtermstructure.hpp:346-347 | the interpolation segment is always a valid segment index; on increasing times a time inside the node range lies within its segment, strictly below the segment's end unless it is the last node |
| Interpolation.ChordBetween | ql/termstructures/fxforwardpointtermstructure.hpp:346-347 | between its end points a segment's line stays between their values and meets them at the ends |
| Interpolation.Linear | ql/termstructures/fxforwardpointtermstructure.hpp:346-347 | on increasing times, inside the node range, the value lies between the values of the two nodes bounding the located segment |
| Interpolation.LocateAtNode | ql/termstructures/fxforwardpointtermstructure.hpp:346-347 | on increasing times a node's own time selects the segment starting there (the last node the last segment) |
| Interpolation.LinearAtNode | ql/termstructures/fxforwardpointtermstructure.hpp:346-347 | the linear interpolant returns each node's value at its time |
| Interpolation.LinearBetweenNodes | ql/termstructures/fxforwardpointtermstructure.hpp:346-347 | between any two neighbouring node times the interpolant is the chord joining those nodes, so it lies between their values |
| FxForwardPointCurves.FirstNodeErrorNone | ql/termstructures/fxforwardpointtermstructure.hpp:285-299 | the date loop finds no error iff no quoted date is rejected |
| FxForwardPointCurves.InitializeAcceptsExactly | ql/termstructures/fxforwardpointtermstructure.hpp:276-299 | `initialize` succeeds iff there is a date, one point per date, the first date is after the reference date, each date after its predecessor, and no neighbouring times (anchor included) coincide |
| FxForwardPointCurves.AdjacentToSorted | ql/termstructures/fxforwardpointtermstructure.hpp:285-293 | dates checked pairwise are sorted and all after the reference date |
| FxForwardPointCurves.IncreasingDayCountInitialize | ql/termstructures/fxforwardpointtermstructure.hpp:283-299 | with a day count growing in the end date, `initialize` rejects only dates out of order, and accepted times increase strictly |
| FxForwardPointCurves.QuoteNodes | ql/termstructures/fxforwardpointtermstructure.hpp:227-232 | date i is reference date + tenor i and point i is rate i's forward points |
| FxForwardPointCurves.InterpolatedFxForwardPointTermStructure.constructor | ql/termstructures/fxforwardpointtermstructure.hpp:200-213 | stores the quotes and sizes `times`/`data` at dates + 1 |
| FxForwardPointCurves.InterpolatedFxForwardPointTermStructure.Initialize | ql/termstructures/fxforwardpointtermstructure.hpp:274-304 | returns the first error in the source's order; on success `times` is 0 then each date's year fraction, `data` is 0 then the points |
| FxForwardPointCurves.InterpolatedFxForwardPointTermStructure.FromQuotes | ql/termstructures/fxforwardpointtermstructure.hpp:200-213 | fails with `initialize`'s error exactly when `initialize` would; otherwise a fresh valid curve holding the given reference date, spot rate, dates, points, day count and calendar, with no explicit maximum date |
| FxForwardPointCurves.InterpolatedFxForwardPointTermStructure.FromForwardRates | ql/termstructures/fxforwardpointtermstructure.hpp:215-235 | fails exactly when `initialize` would on the derived quotes; otherwise a fresh valid curve with the given reference date, day count and calendar, dates from the tenors, points from the rates, spot from the first rate, and no explicit maximum date |
| FxForwardPointCurves.InterpolatedFxForwardPointTermStructure.Source | ql/termstructures/fxforwardpointtermstructure.hpp:170-172 | the curve's source currency is its spot rate's source |
| FxForwardPointCurves.InterpolatedFxForwardPointTermStructure.Target | ql/termstructures/fxforwardpointtermstructure.hpp:174-176 | the curve's target currency is its spot rate's target |
| FxForwardPointCurves.InterpolatedFxForwardPointTermStructure.MaxDate | ql/termstructures/fxforwardpointtermstructure.hpp:306-311 | the explicit maximum date if set, else the last quoted date, which is after the reference date |
| FxForwardPointCurves.InterpolatedFxForwardPointTermStructure.ForwardPointsImpl | ql/termstructures/fxforwardpointtermstructure.hpp:343-351 | past the last node time, the last quoted points |
| FxForwardPointCurves.InterpolatedFxForwardPointTermStructure.CheckRange | ql/termstructures/fxforwardpointtermstructure.hpp:183-186 | passes iff t ≥ 0 and (extrapolating or t ≤ max time) |
| FxForwardPointCurves.InterpolatedFxForwardPointTermStructure.ForwardPoints | ql/termstructures/fxforwardpointtermstructure.hpp:183-186 | succeeds iff the range check passes, and then gives the curve's points |
| FxForwardPointCurves.InterpolatedFxForwardPointTermStructure.ForwardPointsOnDate | ql/termstructures/fxforwardpointtermstructure.hpp:178-181 | the date overload is the time overload at the date's year fraction |
| FxForwardPointCurves.InterpolatedFxForwardPointTermStructure.ForwardExchangeRateAt | ql/termstructures/fxforwardpointtermstructure.hpp:193-197 | a Direct rate on the curve's spot rate with empty tenor, same source and target as the curve, all-in at the curve's points |
| FxForwardPointCurves.InterpolatedFxForwardPointTermStructure.ForwardExchangeRateOnDate | ql/termstructures/fxforwardpointtermstructure.hpp:188-191 | the date overload is the time overload at the date's year fraction |
| FxForwardPointCurves.InterpolatedFxForwardPointTermStructure.Nodes | ql/termstructures/fxforwardpointtermstructure.hpp:334-341 | as written: the first date paired with 0, date i with quote i−1 |
| FxForwardPointCurves.InterpolatedFxForwardPointTermStructure.NodesCorrected | ql/termstructures/fxforwardpointtermstructure.hpp:334-341 | the intended nodes: each date with its own quote |
| FxForwardPointCurves.ForwardPointsAtNodes | ql/termstructures/fxforwardpointtermstructure.hpp:283-298 | on increasing times the curve is 0 at time 0 and quote i at date i's time |
| FxForwardPointCurves.ForwardPointsBetweenNodes | ql/termstructures/fxforwardpointtermstructure.hpp:343-351 | on increasing times, between two neighbouring node times the curve's points are on the chord joining those nodes, hence between their points |
| FxForwardPointCurves.FlatBeyondLastNode | ql/termstructures/fxforwardpointtermstructure.hpp:346-349 | past the last node the curve keeps the last node's value |
| FxForwardPointCurves.ForwardExchangeRateSkipsRangeCheck | ql/termstructures/fxforwardpointtermstructure.hpp:183-197 | the forward rate ignores the flag and answers everywhere; where `forwardPoints` succeeds the two agree; negative times fail `forwardPoints` |
| FxForwardPointCurves.NodesAsWrittenMisplaceFirstQuote | ql/termstructures/fxforwardpointtermstructure.hpp:337-339 | with a non-zero first quote, the as-written first node is not on the curve |
| FxForwardPointCurves.QuotedNodesLieOnCurve | ql/termstructures/fxforwardpointtermstructure.hpp:334-341 | every intended node lies on the curve |
| FxForwardContract.TermsForPair | ql/instruments/foreignexchangeforward.cpp:36-45 | the defaults, overwritten for EUR/USD, give exactly the pair's terms |
| FxForwardContract.PairTermsOverrideOnlyEurUsd | ql/instruments/foreignexchangeforward.cpp:36-45 | convention Following and 2 settlement days always; terms differ from Actual360/NullCalendar iff the pair is EUR/USD, which gets Actual365Fixed; USD/EUR keeps the defaults |
| FxForwardContract.ForeignExchangeForward.constructor | ql/instruments/foreignexchangeforward.cpp:60-75 | stores the inputs; term notional = base notional × contract rate, zero exactly when the base notional or the rate is, and divided by a non-zero rate it gives back the base notional |
| FxForwardContract.ForeignExchangeForward.WithPairTerms | ql/instruments/foreignexchangeforward.cpp:48-58 | the same, with the pair's default terms, including the term notional's zero and division facts |
| FxForwardContract.ForeignExchangeForward.SpotValue | ql/instruments/foreignexchangeforward.cpp:89 | always 0 |
| FxForwardContract.ForeignExchangeForward.SpotIncome | ql/instruments/foreignexchangeforward.cpp:84-87 | always 0, whatever the curve |
| FxForwardContract.ForeignExchangeForward.PerformCalculations | ql/instruments/foreignexchangeforward.cpp:77-82 | the underlying spot value is the spot value (0) and the income 0 |
| FxForwardInstrument.ForeignExchangeForward.BaseSign | ql/instruments/foreignexchangeforward.hpp:110-112 | −1 iff selling base, +1 iff buying base |
| FxForwardInstrument.Arguments.BaseSign | ql/instruments/foreignexchangeforward.hpp:135-137 | −1 iff selling base, +1 iff buying base |
| FxForwardInstrument.BaseSignsAgree | ql/instruments/foreignexchangeforward.hpp:110-137 | the instrument and its arguments agree on the sign, which squares to 1 |
| FxForwardInstrument.ForeignExchangeForward.BaseCurrency | ql/instruments/foreignexchangeforward.hpp:201-203 | the base notional's currency |
| FxForwardInstrument.ForeignExchangeForward.ContractNotionalAmountTerm | ql/instruments/foreignexchangeforward.hpp:215-217 | the base notional through the contract rate; fails if a direct rate does not quote the base currency |
| FxForwardInstrument.ContractNotionalRoundTrip | ql/instruments/foreignexchangeforward.hpp:215-217 | with a direct rate from the base currency: base × rate in the term currency, and the rate takes it back to the base notional |
| FxForwardInstrument.ForeignExchangeForward.IsExpired | ql/instruments/foreignexchangeforward.hpp:191-193 | expired exactly when the evaluation date is after the delivery date, so at the earliest the day after delivery |
| FxForwardInstrument.ExpiryIsMonotone | ql/instruments/foreignexchangeforward.hpp:191-193 | live on the delivery date, expired the day after, and once expired expired for every later evaluation date |
| FxForwardInstrument.Results.constructor | ql/instruments/foreignexchangeforward.hpp:150-165 | a new record is in the state `reset()` leaves (the C++ record has no constructor; see Left out) |
| FxForwardInstrument.Results.Reset | ql/instruments/foreignexchangeforward.hpp:157-164 | fair points Null, the four amounts empty Money, base fields Null |
| FxForwardInstrumentLegacy.ForeignExchangeForward.BaseCurrency | ql/instruments/foreignexchangeforward.h:164-166 | the base notional's currency |
| FxForwardInstrumentLegacy.ForeignExchangeForward.ContractAllInRate | ql/instruments/foreignexchangeforward.h:170-172 | the stored rate unchanged |
| FxForwardInstrumentLegacy.ForeignExchangeForward.NotionalAmountBase | ql/instruments/foreignexchangeforward.h:174-176 | the base notional's value |
| FxForwardInstrumentLegacy.ForeignExchangeForward.NotionalAmountTerm | ql/instruments/foreignexchangeforward.h:178-180 | succeeds iff exchanging the base notional does, with that amount's value |
| FxForwardInstrumentLegacy.NotionalAmountTermIsBaseTimesRate | ql/instruments/foreignexchangeforward.h:178-180 | for a direct rate from the base currency, equals base × rate, the term notional the out-of-line constructor stores |
| FxForwardInstrumentLegacy.ForeignExchangeForward.IsExpired | ql/instruments/foreignexchangeforward.h:158-160 | expired exactly when the evaluation date is after the delivery date, so at the earliest the day after delivery |
| FxForwardInstrumentLegacy.ExpiryIsMonotone | ql/instruments/foreignexchangeforward.h:158-160 | live on the delivery date, expired the day after, monotone in the evaluation date |
| FxForwardInstrumentLegacy.Results.constructor | ql/instruments/foreignexchangeforward.h:126-135 | a new record has the default-constructed empty currency and Money, and Null real fields (the C++ record has no constructor; see Left out) |
| FxForwardInstrumentLegacy.Results.Reset | ql/instruments/foreignexchangeforward.h:129-134 | forward value empty Money, base fields Null, valuation currency untouched |
| ForwardPointsEngines.EngineForwardRate | ql/pricingengines/fx/forwardpointsengine.cpp:42-43 | a direct rate between the contract rate's currencies; equals spot with no points, exceeds it with positive points |
| ForwardPointsEngines.ForwardValue | ql/pricingengines/fx/forwardpointsengine.cpp:44-45 | in the base notional's currency; zero iff the notional is zero or the two rates are equal |
| ForwardPointsEngines.ForwardValueSign | ql/pricingengines/fx/forwardpointsengine.cpp:44-45 | for a positive notional the value is positive iff the forward rate exceeds the contract rate, negative iff below |
| ForwardPointsEngines.DiscountedValueBounds | ql/pricingengines/fx/forwardpointsengine.cpp:41-51 | the step `Calculate` relies on: a discount factor in (0, 1] keeps the sign of the forward value and does not enlarge it |
| ForwardPointsEngines.ValuationExample | Examples/FxForwardValuation/FxForwardValuation.cpp:66-81 | 10000 EUR at 1.1389 against 1.1351 + 45 points: forward rate 1.1396, forward value 7 EUR |
| ForwardPointsEngines.ForwardPointsEngine.constructor | ql/pricingengines/fx/forwardpointsengine.cpp:24-31 | stores valuation currency, spot, points and curve |
| ForwardPointsEngines.ForwardPointsEngine.Calculate | ql/pricingengines/fx/forwardpointsengine.cpp:33-53 | an empty curve handle fails with results untouched; with a curve, the discount lookup taken as total (see Left out), it stores the valuation currency, the curve's reference date, the forward value, value = discount(year fraction to delivery) × forward value, error estimate 0; and with a discount factor in (0, 1] the stored value is zero exactly when the forward value is, has its sign, and is no larger in size |

## Left out

- `ql/exchangerate.hpp` is not part of this model: `ExchangeRates` holds only the behaviour the forward code relies on.
- ExchangeRates.Exchange: requires every direct rate inside to be non-zero (`Invertible`), also on the multiplying branch that does not divide; a zero rate is left out.
- ForwardExchangeRates.Exchange: requires every direct forward rate inside to be non-zero, for the same reason.
- ExchangeRates.Chain: requires the divisor of the matching case to be non-zero; the source would divide by zero there.
- ForwardExchangeRates.Chain: requires the spot and forward divisors of the matching case to be non-zero, for the same reason.
- ExchangeRates.Inverse: requires a non-zero rate to take the reciprocal of.
- ForwardExchangeRates.Inverse: requires non-zero spot and forward rates to take reciprocals of.
- `Period` equality is structural (`12 Months` differs from `1 Year`), not QuantLib's normalised comparison. QuantLib's comparison also throws on pairs it cannot decide, such as `1M` against `30D`; the model instead treats them as different tenors (TenorMismatch).
- `close()` tolerance in `initialize` and `checkRange` is modelled as exact equality and comparison.
- The `Extrapolator` flag of the curve (`allowsExtrapolation`) is taken as off; only the `extrapolate` argument matters.
- The curve's protected constructors (`fxforwardpointtermstructure.hpp:237-272`) and the accessors `times()`, `dates()`, `data()`, `forwardPointsVector()` are the class's fields.
- FxForwardPointCurves.InterpolatedFxForwardPointTermStructure.FromForwardRates: requires a non-empty list; the source reads the first element of an empty vector, which is undefined.
- `LinearInterpolation` is outside the modelled files. `Interpolation` locates the segment by upper bound on the node times and extends the first and last segments outside the node range.
- `Instrument::results::reset` is outside the modelled files. The model resets the base fields `value`, `errorEstimate` and `valuationDate` to Null, and does not model additional results.
- FxForwardInstrument.Results.constructor, FxForwardInstrumentLegacy.Results.constructor: the C++ results records (`foreignexchangeforward.hpp:150-165`, `foreignexchangeforward.h:126-135`) have no constructor, so their `Real` fields hold indeterminate values until `reset()` runs. The model starts them at Null, which is what `reset()` would give.
- ForwardPointsEngines.ForwardPointsEngine.Calculate: the discount lookup `discount(timeToDelivery)` is taken as a total function of time. QuantLib's `YieldTermStructure::discount` range-checks the time and throws on a negative time, or on a time past the curve's maximum date when extrapolation is off; `calculate` then stores nothing. The model does not capture that failure, so it fails on fewer inputs than the source: only on an empty handle.
- `Forward::performCalculations`, the observer/lazy-recalculation framework, `setupArguments`/`fetchResults`, `setupExpired` and the settings singleton are left out; the evaluation date is a parameter.
- The newer header's result accessors (`fairForwardPoints`, net and gross values), its instrument constructor and the curve-based engine are declared, but their definitions are outside the modelled files, so they are not modelled.
- `operator<<` printing is left out.
- Floating-point rounding is not modelled: rates and amounts are real numbers.

## Findings

| source | as written | input that shows it | evidently intended | confidence | as-written member | corrected member |
|---|---|---|---|---|---|---|
| ql/forwardexchangerate.cpp:84 | new forward points are `(1/forwardRate − inverseSpot)/10000` | EUR/USD spot 1.1351, 45 points: the inverse's forward rate is not 1/1.1396 | multiply by 10000, so the inverse's forward rate is the reciprocal | high (not executed) | ForwardExchangeRates.InverseAsWrittenCounterexample | ForwardExchangeRates.InverseCorrected |
| ql/termstructures/fxforwardpointtermstructure.hpp:337-339 | `nodes()` pairs `dates_[i]` with `data_[i]`, which is one behind because of the anchor | any curve with a non-zero first quote: the first node carries 0 | pair `dates_[i]` with `data_[i+1]`, each date with its own quote | high (not executed) | FxForwardPointCurves.NodesAsWrittenMisplaceFirstQuote | FxForwardPointCurves.QuotedNodesLieOnCurve |
