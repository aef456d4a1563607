/**
 * `FxForwardPointTermStructure` and its linearly interpolated implementation:
 * a curve of forward points over time, anchored at (0, 0), built from quoted
 * dates and points, flat beyond the last quoted node.
 */
module FxForwardPointCurves {
  import opened Common
  import opened Time
  import opened Currencies
  import opened ExchangeRates
  import opened ForwardExchangeRates
  import opened Interpolation

  datatype CurveError =
    | NotEnoughDates
    | DataCountMismatch
      /** A quoted date not after the date before it (the reference date for the first quote). */
    | InvalidDate(date: Date, previous: Date)
      /** A quoted date whose year fraction equals the one before it. */
    | SameTime(date: Date)
    | NegativeTime(t: real)
    | PastMaxTime(t: real, maxTime: real)

  /** The curve's day count: the year fraction from one date to another. */
  type YearFraction = (Date, Date) -> real

  /** The date node `i` must follow. */
  function PreviousDate(referenceDate: Date, dates: seq<Date>, i: nat): Date
    requires i < |dates|
  {
    if i == 0 then referenceDate else dates[i - 1]
  }

  /** The time node `i` must differ from: the anchor's 0 for the first node. */
  function PreviousTime(referenceDate: Date, dates: seq<Date>, yearFraction: YearFraction, i: nat): real
    requires i < |dates|
  {
    if i == 0 then 0.0 else yearFraction(referenceDate, dates[i - 1])
  }

  /** What `initialize` rejects about quoted date `i`, checked in its order. */
  function NodeError(referenceDate: Date, dates: seq<Date>, yearFraction: YearFraction, i: nat): Option<CurveError>
    requires i < |dates|
  {
    if !(dates[i] > PreviousDate(referenceDate, dates, i)) then
      Some(InvalidDate(dates[i], PreviousDate(referenceDate, dates, i)))
    else if yearFraction(referenceDate, dates[i]) == PreviousTime(referenceDate, dates, yearFraction, i) then
      Some(SameTime(dates[i]))
    else None
  }

  /** The first rejected quoted date from position `from` on. */
  function FirstNodeError(referenceDate: Date, dates: seq<Date>, yearFraction: YearFraction, from: nat): Option<CurveError>
    requires from <= |dates|
    decreases |dates| - from
  {
    if from == |dates| then None
    else if NodeError(referenceDate, dates, yearFraction, from).Some? then NodeError(referenceDate, dates, yearFraction, from)
    else FirstNodeError(referenceDate, dates, yearFraction, from + 1)
  }

  /** The error `initialize` raises for these quotes and a `data_` of `dataCount` entries, or None. */
  function InitializeError(referenceDate: Date, dates: seq<Date>, fwdPoints: seq<real>, dataCount: nat,
                           yearFraction: YearFraction): Option<CurveError>
  {
    if |dates| < 1 then Some(NotEnoughDates)
    else if dataCount != |fwdPoints| + 1 then Some(DataCountMismatch)
    else FirstNodeError(referenceDate, dates, yearFraction, 0)
  }

  /** `times_` after `initialize`: the anchor 0, then each quoted date's year fraction. */
  function CurveTimes(referenceDate: Date, dates: seq<Date>, yearFraction: YearFraction): seq<real> {
    [0.0] + seq(|dates|, i requires 0 <= i < |dates| => yearFraction(referenceDate, dates[i]))
  }

  /** `data_` after `initialize`: the anchor 0, then the quoted points. */
  function CurveData(fwdPoints: seq<real>): seq<real> {
    [0.0] + fwdPoints
  }

  lemma {:induction false} FirstNodeErrorNone(referenceDate: Date, dates: seq<Date>, yearFraction: YearFraction, from: nat)
    requires from <= |dates|
    ensures FirstNodeError(referenceDate, dates, yearFraction, from).None? <==>
            forall i :: from <= i < |dates| ==> NodeError(referenceDate, dates, yearFraction, i).None?
    decreases |dates| - from
  {
    if from < |dates| {
      FirstNodeErrorNone(referenceDate, dates, yearFraction, from + 1);
    }
  }

  /**
   * `initialize` accepts exactly the quotes with at least one date, one
   * point per date, every date after the one before it (the first after the
   * reference date) and no two neighbouring nodes, the anchor included, at
   * the same time.
   */
  lemma InitializeAcceptsExactly(referenceDate: Date, dates: seq<Date>, fwdPoints: seq<real>, yearFraction: YearFraction)
    ensures InitializeError(referenceDate, dates, fwdPoints, |dates| + 1, yearFraction).None? <==>
            && |dates| >= 1 && |fwdPoints| == |dates|
            && dates[0] > referenceDate
            && (forall i :: 0 < i < |dates| ==> dates[i - 1] < dates[i])
            && DistinctNeighbours(CurveTimes(referenceDate, dates, yearFraction))
  {
    var times := CurveTimes(referenceDate, dates, yearFraction);
    FirstNodeErrorNone(referenceDate, dates, yearFraction, 0);
    if |dates| >= 1 && |fwdPoints| == |dates| {
      assert forall i :: 0 <= i < |dates| ==> times[i + 1] == yearFraction(referenceDate, dates[i]);
      assert forall i :: 0 <= i < |dates| ==> times[i] == PreviousTime(referenceDate, dates, yearFraction, i);
      var nodesOk := forall i :: 0 <= i < |dates| ==> NodeError(referenceDate, dates, yearFraction, i).None?;
      var datesOk := dates[0] > referenceDate && (forall i :: 0 < i < |dates| ==> dates[i - 1] < dates[i]);
      if nodesOk {
        forall i | 0 < i < |dates| ensures dates[i - 1] < dates[i] {
          assert NodeError(referenceDate, dates, yearFraction, i).None?;
        }
        assert NodeError(referenceDate, dates, yearFraction, 0).None?;
        forall i | 0 <= i < |times| - 1 ensures times[i] != times[i + 1] {
          assert NodeError(referenceDate, dates, yearFraction, i).None?;
        }
      }
      if datesOk && DistinctNeighbours(times) {
        forall i | 0 <= i < |dates| ensures NodeError(referenceDate, dates, yearFraction, i).None? {
          assert times[i] != times[i + 1];
        }
      }
    }
  }

  /** A day count that starts at 0 on the reference date and grows strictly with the end date. */
  ghost predicate IncreasingFrom(yearFraction: YearFraction, referenceDate: Date) {
    && yearFraction(referenceDate, referenceDate) == 0.0
    && forall d1, d2 :: d1 < d2 ==> yearFraction(referenceDate, d1) < yearFraction(referenceDate, d2)
  }

  lemma {:induction false} AdjacentToSorted(referenceDate: Date, dates: seq<Date>)
    requires |dates| >= 1 && dates[0] > referenceDate
    requires forall i :: 0 < i < |dates| ==> dates[i - 1] < dates[i]
    ensures forall i, j :: 0 <= i < j < |dates| ==> dates[i] < dates[j]
    ensures forall i :: 0 <= i < |dates| ==> referenceDate < dates[i]
  {
    if |dates| > 1 {
      var front := dates[..|dates| - 1];
      assert forall i :: 0 < i < |front| ==> front[i - 1] < front[i] by {
        forall i | 0 < i < |front| ensures front[i - 1] < front[i] { assert front[i] == dates[i]; }
      }
      AdjacentToSorted(referenceDate, front);
      assert forall i :: 0 <= i < |front| ==> front[i] == dates[i];
      var n := |dates|;
      forall i, j | 0 <= i < j < n ensures dates[i] < dates[j] {
        if j < n - 1 {
          assert front[i] < front[j];
        } else if i < n - 2 {
          assert front[i] < front[n - 2];
        }
      }
    }
  }

  /**
   * With a day count that increases strictly, no two dates ever share a time:
   * `initialize` then rejects only dates out of order, and the times it
   * builds increase strictly.
   */
  lemma IncreasingDayCountInitialize(referenceDate: Date, dates: seq<Date>, fwdPoints: seq<real>, yearFraction: YearFraction)
    requires IncreasingFrom(yearFraction, referenceDate)
    ensures InitializeError(referenceDate, dates, fwdPoints, |dates| + 1, yearFraction).None? <==>
            && |dates| >= 1 && |fwdPoints| == |dates|
            && dates[0] > referenceDate
            && (forall i :: 0 < i < |dates| ==> dates[i - 1] < dates[i])
    ensures InitializeError(referenceDate, dates, fwdPoints, |dates| + 1, yearFraction).None? ==>
            StrictlyIncreasing(CurveTimes(referenceDate, dates, yearFraction))
  {
    InitializeAcceptsExactly(referenceDate, dates, fwdPoints, yearFraction);
    var times := CurveTimes(referenceDate, dates, yearFraction);
    if |dates| >= 1 && dates[0] > referenceDate && (forall i :: 0 < i < |dates| ==> dates[i - 1] < dates[i]) {
      AdjacentToSorted(referenceDate, dates);
      forall i, j | 0 <= i < j < |times| ensures times[i] < times[j] {
        assert times[j] == yearFraction(referenceDate, dates[j - 1]);
        if i == 0 {
          assert yearFraction(referenceDate, referenceDate) < yearFraction(referenceDate, dates[j - 1]);
        } else {
          assert times[i] == yearFraction(referenceDate, dates[i - 1]);
        }
      }
    }
  }

  /** The dates `referenceDate + tenor` of the quoted forward rates. */
  function TenorDates(referenceDate: Date, fwdExchangeRates: seq<ForwardExchangeRate>,
                      advance: (Date, Period) -> Date): seq<Date>
  {
    seq(|fwdExchangeRates|, i requires 0 <= i < |fwdExchangeRates| => advance(referenceDate, fwdExchangeRates[i].tenor))
  }

  /** The forward points of the quoted forward rates. */
  function QuotedPoints(fwdExchangeRates: seq<ForwardExchangeRate>): seq<real> {
    seq(|fwdExchangeRates|, i requires 0 <= i < |fwdExchangeRates| => fwdExchangeRates[i].forwardPoints)
  }

  /** The loop of the forward-rate constructor: one date and one point per quoted forward rate. */
  method QuoteNodes(referenceDate: Date, fwdExchangeRates: seq<ForwardExchangeRate>, advance: (Date, Period) -> Date)
    returns (dates: seq<Date>, fwdPoints: seq<real>)
    ensures |dates| == |fwdPoints| == |fwdExchangeRates|
    ensures forall i :: 0 <= i < |fwdExchangeRates| ==>
              dates[i] == advance(referenceDate, fwdExchangeRates[i].tenor)
              && fwdPoints[i] == fwdExchangeRates[i].forwardPoints
  {
    var n := |fwdExchangeRates|;
    var dateArray := new Date[n];
    var pointArray := new real[n];
    for i := 0 to n
      invariant forall k :: 0 <= k < i ==> dateArray[k] == advance(referenceDate, fwdExchangeRates[k].tenor)
      invariant forall k :: 0 <= k < i ==> pointArray[k] == fwdExchangeRates[k].forwardPoints
    {
      dateArray[i] := advance(referenceDate, fwdExchangeRates[i].tenor);
      pointArray[i] := fwdExchangeRates[i].forwardPoints;
    }
    dates, fwdPoints := dateArray[..], pointArray[..];
  }

  /** The nodes pairing date `i` with `data[i]`: what `nodes()` returns. */
  function NodesAsWritten(dates: seq<Date>, data: seq<real>): seq<(Date, real)>
    requires |dates| <= |data|
  {
    seq(|dates|, i requires 0 <= i < |dates| => (dates[i], data[i]))
  }

  /** Each quoted date with its own quoted points. */
  function QuotedNodes(dates: seq<Date>, fwdPoints: seq<real>): seq<(Date, real)>
    requires |dates| <= |fwdPoints|
  {
    seq(|dates|, i requires 0 <= i < |dates| => (dates[i], fwdPoints[i]))
  }

  class InterpolatedFxForwardPointTermStructure {
    const referenceDate: Date
    const spotExchangeRate: ExchangeRate
    const yearFraction: YearFraction
    const calendar: Calendar
    const dates: seq<Date>
    const fwdPoints: seq<real>
    const times: array<real>
    const data: array<real>
    /** `maxDate_`: the null date unless a maximum date was set explicitly. */
    var explicitMaxDate: Date

    /** The state after a successful `initialize`. */
    ghost predicate Valid()
      reads this, times, data
    {
      && times != data
      && times.Length == data.Length
      && InitializeError(referenceDate, dates, fwdPoints, data.Length, yearFraction).None?
      && times[..] == CurveTimes(referenceDate, dates, yearFraction)
      && data[..] == CurveData(fwdPoints)
      && DistinctNeighbours(times[..])
    }

    /** The member initialisers: the quotes are stored and `times_`/`data_` get one slot per date plus the anchor. */
    constructor (referenceDate: Date, spotExchangeRate: ExchangeRate, dates: seq<Date>, fwdPoints: seq<real>,
                 yearFraction: YearFraction, calendar: Calendar)
      ensures this.referenceDate == referenceDate && this.spotExchangeRate == spotExchangeRate
      ensures this.dates == dates && this.fwdPoints == fwdPoints
      ensures this.yearFraction == yearFraction && this.calendar == calendar
      ensures fresh(times) && fresh(data) && times != data
      ensures times.Length == data.Length == |dates| + 1
      ensures explicitMaxDate == NullDate
    {
      this.referenceDate := referenceDate;
      this.spotExchangeRate := spotExchangeRate;
      this.dates := dates;
      this.fwdPoints := fwdPoints;
      this.yearFraction := yearFraction;
      this.calendar := calendar;
      times := new real[|dates| + 1];
      data := new real[|dates| + 1];
      explicitMaxDate := NullDate;
    }

    /** `initialize`: validates the quotes and fills `times_` and `data_`. */
    method Initialize() returns (err: Option<CurveError>)
      requires times != data && times.Length == data.Length == |dates| + 1
      modifies times, data
      ensures err == InitializeError(referenceDate, dates, fwdPoints, data.Length, yearFraction)
      ensures err.None? ==> Valid()
    {
      if |dates| < 1 {
        return Some(NotEnoughDates);
      }
      if data.Length != |fwdPoints| + 1 {
        return Some(DataCountMismatch);
      }
      ghost var expectedTimes := CurveTimes(referenceDate, dates, yearFraction);
      ghost var expectedData := CurveData(fwdPoints);
      times[0] := 0.0;
      data[0] := 0.0;
      if !(dates[0] > referenceDate) {
        return Some(InvalidDate(dates[0], referenceDate));
      }
      times[1] := yearFraction(referenceDate, dates[0]);
      if times[1] == times[0] {
        return Some(SameTime(dates[0]));
      }
      data[1] := fwdPoints[0];
      var i := 1;
      while i < |dates|
        invariant 1 <= i <= |dates|
        invariant times[..i + 1] == expectedTimes[..i + 1]
        invariant data[..i + 1] == expectedData[..i + 1]
        invariant FirstNodeError(referenceDate, dates, yearFraction, 0) == FirstNodeError(referenceDate, dates, yearFraction, i)
      {
        if !(dates[i] > dates[i - 1]) {
          return Some(InvalidDate(dates[i], dates[i - 1]));
        }
        times[i + 1] := yearFraction(referenceDate, dates[i]);
        assert times[i] == expectedTimes[..i + 1][i];
        if times[i + 1] == times[i] {
          return Some(SameTime(dates[i]));
        }
        data[i + 1] := fwdPoints[i];
        i := i + 1;
      }
      assert times[..] == times[..i + 1];
      assert data[..] == data[..i + 1];
      InitializeAcceptsExactly(referenceDate, dates, fwdPoints, yearFraction);
      return None;
    }

    /** Builds the curve from quoted dates and points (the first public constructor). */
    static method FromQuotes(referenceDate: Date, spotExchangeRate: ExchangeRate, dates: seq<Date>,
                             fwdPoints: seq<real>, yearFraction: YearFraction, calendar: Calendar)
      returns (r: Result<InterpolatedFxForwardPointTermStructure, CurveError>)
      ensures r.Failure? <==> InitializeError(referenceDate, dates, fwdPoints, |dates| + 1, yearFraction).Some?
      ensures r.Failure? ==> InitializeError(referenceDate, dates, fwdPoints, |dates| + 1, yearFraction) == Some(r.error)
      ensures r.Success? ==>
                && fresh(r.value) && fresh(r.value.times) && fresh(r.value.data) && r.value.Valid()
                && r.value.referenceDate == referenceDate && r.value.spotExchangeRate == spotExchangeRate
                && r.value.dates == dates && r.value.fwdPoints == fwdPoints
                && r.value.yearFraction == yearFraction && r.value.calendar == calendar
                && r.value.explicitMaxDate == NullDate
    {
      var curve := new InterpolatedFxForwardPointTermStructure(referenceDate, spotExchangeRate, dates, fwdPoints,
                                                              yearFraction, calendar);
      var err := curve.Initialize();
      if err.Some? {
        return Failure(err.value);
      }
      return Success(curve);
    }

    /**
     * Builds the curve from forward rates (the second public constructor):
     * dates are `referenceDate + tenor`, points are the rates' forward points
     * and the spot rate is the first rate's.
     */
    static method FromForwardRates(referenceDate: Date, fwdExchangeRates: seq<ForwardExchangeRate>,
                                   yearFraction: YearFraction, calendar: Calendar, advance: (Date, Period) -> Date)
      returns (r: Result<InterpolatedFxForwardPointTermStructure, CurveError>)
      requires |fwdExchangeRates| > 0
      ensures var dates := TenorDates(referenceDate, fwdExchangeRates, advance);
              var points := QuotedPoints(fwdExchangeRates);
              && (r.Failure? <==> InitializeError(referenceDate, dates, points, |dates| + 1, yearFraction).Some?)
              && (r.Success? ==>
                    && fresh(r.value) && r.value.Valid()
                    && r.value.referenceDate == referenceDate
                    && r.value.spotExchangeRate == fwdExchangeRates[0].spot
                    && r.value.dates == dates && r.value.fwdPoints == points
                    && r.value.yearFraction == yearFraction && r.value.calendar == calendar
                    && r.value.explicitMaxDate == NullDate)
    {
      var dates, points := QuoteNodes(referenceDate, fwdExchangeRates, advance);
      assert dates == TenorDates(referenceDate, fwdExchangeRates, advance);
      assert points == QuotedPoints(fwdExchangeRates);
      r := FromQuotes(referenceDate, fwdExchangeRates[0].spot, dates, points, yearFraction, calendar);
    }

    /** `source()`: the spot rate's source currency. */
    function Source(): (c: Currency)
      ensures c == spotExchangeRate.source
    {
      spotExchangeRate.source
    }

    /** `target()`: the spot rate's target currency. */
    function Target(): (c: Currency)
      ensures c == spotExchangeRate.target
    {
      spotExchangeRate.target
    }

    /** `timeFromReference`: the year fraction from the reference date. */
    function TimeFromReference(d: Date): real { yearFraction(referenceDate, d) }

    /** `maxDate()`: the explicit maximum date if set, else the last quoted date. */
    function MaxDate(): (d: Date)
      requires Valid()
      reads this, times, data
      ensures explicitMaxDate != NullDate ==> d == explicitMaxDate
      ensures explicitMaxDate == NullDate ==> d == dates[|dates| - 1] && d > referenceDate
    {
      InitializeAcceptsExactly(referenceDate, dates, fwdPoints, yearFraction);
      AdjacentToSorted(referenceDate, dates);
      if explicitMaxDate != NullDate then explicitMaxDate else dates[|dates| - 1]
    }

    function MaxTime(): real
      requires Valid()
      reads this, times, data
    {
      TimeFromReference(MaxDate())
    }

    /** `forwardPointsImpl`: linear up to the last node time, the last node's points beyond it. */
    function ForwardPointsImpl(t: real): (p: real)
      requires Valid()
      reads this, times, data
      ensures t > times[times.Length - 1] ==> p == fwdPoints[|fwdPoints| - 1]
    {
      if t <= times[times.Length - 1] then Linear(times[..], data[..], t)
      else data[data.Length - 1]
    }

    /** `checkRange`: negative times fail, and so do times past the last date unless extrapolating. */
    function CheckRange(t: real, extrapolate: bool): (e: Option<CurveError>)
      requires Valid()
      reads this, times, data
      ensures e.None? <==> t >= 0.0 && (extrapolate || t <= MaxTime())
    {
      if t < 0.0 then Some(NegativeTime(t))
      else if !extrapolate && t > MaxTime() then Some(PastMaxTime(t, MaxTime()))
      else None
    }

    /** `forwardPoints(t, extrapolate)`: range-checked forward points. */
    function ForwardPoints(t: real, extrapolate: bool): (r: Result<real, CurveError>)
      requires Valid()
      reads this, times, data
      ensures r.Success? <==> t >= 0.0 && (extrapolate || t <= MaxTime())
      ensures r.Success? ==> r.value == ForwardPointsImpl(t)
    {
      match CheckRange(t, extrapolate)
      case Some(e) => Failure(e)
      case None => Success(ForwardPointsImpl(t))
    }

    /** `forwardPoints(date, extrapolate)`. */
    function ForwardPointsOnDate(d: Date, extrapolate: bool): (r: Result<real, CurveError>)
      requires Valid()
      reads this, times, data
      ensures r == ForwardPoints(TimeFromReference(d), extrapolate)
    {
      ForwardPoints(TimeFromReference(d), extrapolate)
    }

    /** `forwardExchangeRate(t, extrapolate)`: no range check, the flag is ignored. */
    function ForwardExchangeRateAt(t: real, extrapolate: bool): (r: ForwardExchangeRate)
      requires Valid()
      reads this, times, data
      ensures r.DirectForward? && r.tenor == EmptyPeriod && r.spot == spotExchangeRate
      ensures r.Source() == Source() && r.Target() == Target()
      ensures r.ForwardRate() == AllInRate(spotExchangeRate.rate, ForwardPointsImpl(t))
    {
      DirectForward(spotExchangeRate, ForwardPointsImpl(t), EmptyPeriod)
    }

    /** `forwardExchangeRate(date, extrapolate)`. */
    function ForwardExchangeRateOnDate(d: Date, extrapolate: bool): (r: ForwardExchangeRate)
      requires Valid()
      reads this, times, data
      ensures r == ForwardExchangeRateAt(TimeFromReference(d), extrapolate)
    {
      ForwardExchangeRateAt(TimeFromReference(d), extrapolate)
    }

    /** `nodes()` as written: date `i` paired with `data_[i]`, which is one node behind. */
    method Nodes() returns (nodes: seq<(Date, real)>)
      requires Valid()
      ensures nodes == NodesAsWritten(dates, data[..])
      ensures |nodes| == |dates| && nodes[0] == (dates[0], 0.0)
      ensures forall i :: 0 < i < |dates| ==> nodes[i] == (dates[i], fwdPoints[i - 1])
    {
      var results := new (Date, real)[|dates|];
      for i := 0 to |dates|
        invariant forall k :: 0 <= k < i ==> results[k] == (dates[k], data[k])
      {
        results[i] := (dates[i], data[i]);
      }
      nodes := results[..];
    }

    /** The intended `nodes()`: each quoted date with its own quoted points. */
    method NodesCorrected() returns (nodes: seq<(Date, real)>)
      requires Valid()
      ensures |dates| <= |fwdPoints| && nodes == QuotedNodes(dates, fwdPoints)
    {
      var results := new (Date, real)[|dates|];
      for i := 0 to |dates|
        invariant forall k :: 0 <= k < i ==> results[k] == (dates[k], data[k + 1])
      {
        results[i] := (dates[i], data[i + 1]);
      }
      nodes := results[..];
    }
  }

  /**
   * On increasing times the curve goes through its quotes: 0 at time 0 and
   * the quoted points at each quoted date's time.
   */
  lemma ForwardPointsAtNodes(c: InterpolatedFxForwardPointTermStructure, i: nat)
    requires c.Valid() && StrictlyIncreasing(c.times[..]) && i < |c.dates|
    ensures c.ForwardPointsImpl(0.0) == 0.0
    ensures c.ForwardPointsImpl(c.TimeFromReference(c.dates[i])) == c.fwdPoints[i]
  {
    var xs, ys := c.times[..], c.data[..];
    LinearAtNode(xs, ys, 0);
    LinearAtNode(xs, ys, i + 1);
    assert xs[i + 1] == c.TimeFromReference(c.dates[i]);
    assert xs[i + 1] <= xs[|xs| - 1];
  }

  /** Beyond the last node the curve stays at the last node's value. */
  lemma FlatBeyondLastNode(c: InterpolatedFxForwardPointTermStructure, t: real)
    requires c.Valid() && StrictlyIncreasing(c.times[..])
    requires t > c.times[c.times.Length - 1]
    ensures c.ForwardPointsImpl(t) == c.ForwardPointsImpl(c.times[c.times.Length - 1])
  {
    var n := c.times.Length;
    LinearAtNode(c.times[..], c.data[..], n - 1);
  }

  /**
   * `forwardExchangeRate` answers for every time, whatever the flag, while
   * `forwardPoints` answers with the same points only inside the checked range.
   */
  lemma ForwardExchangeRateSkipsRangeCheck(c: InterpolatedFxForwardPointTermStructure, t: real, extrapolate: bool)
    requires c.Valid()
    ensures c.ForwardExchangeRateAt(t, extrapolate) == c.ForwardExchangeRateAt(t, !extrapolate)
    ensures c.ForwardPoints(t, extrapolate).Success? ==>
              c.ForwardExchangeRateAt(t, extrapolate).forwardPoints == c.ForwardPoints(t, extrapolate).value
    ensures t < 0.0 ==> c.ForwardPoints(t, extrapolate).Failure?
  {
  }

  /** The as-written nodes put 0 against the first quoted date, which the curve does not pass through. */
  lemma NodesAsWrittenMisplaceFirstQuote(c: InterpolatedFxForwardPointTermStructure)
    requires c.Valid() && StrictlyIncreasing(c.times[..]) && c.fwdPoints[0] != 0.0
    ensures var nodes := NodesAsWritten(c.dates, c.data[..]);
            c.ForwardPointsImpl(c.TimeFromReference(nodes[0].0)) != nodes[0].1
  {
    ForwardPointsAtNodes(c, 0);
  }

  /** The intended nodes lie on the curve: at each quoted date's time the curve has that date's points. */
  lemma QuotedNodesLieOnCurve(c: InterpolatedFxForwardPointTermStructure)
    requires c.Valid() && StrictlyIncreasing(c.times[..])
    ensures |c.dates| <= |c.fwdPoints|
    ensures var nodes := QuotedNodes(c.dates, c.fwdPoints);
            forall i :: 0 <= i < |nodes| ==> c.ForwardPointsImpl(c.TimeFromReference(nodes[i].0)) == nodes[i].1
  {
    InitializeAcceptsExactly(c.referenceDate, c.dates, c.fwdPoints, c.yearFraction);
    var nodes := QuotedNodes(c.dates, c.fwdPoints);
    forall i | 0 <= i < |nodes| ensures c.ForwardPointsImpl(c.TimeFromReference(nodes[i].0)) == nodes[i].1 {
      ForwardPointsAtNodes(c, i);
    }
  }

  /**
   * On increasing times, between two neighbouring node times the curve is the
   * chord joining those nodes, so its points lie between the two nodes' points.
   */
  lemma ForwardPointsBetweenNodes(c: InterpolatedFxForwardPointTermStructure, k: nat, t: real)
    requires c.Valid() && StrictlyIncreasing(c.times[..])
    requires k < c.times.Length - 1 && c.times[k] <= t <= c.times[k + 1]
    ensures c.times[k] < c.times[k + 1]
    ensures c.ForwardPointsImpl(t) == Chord(c.times[k], c.times[k + 1], c.data[k], c.data[k + 1], t)
    ensures Between(c.ForwardPointsImpl(t), c.data[k], c.data[k + 1])
  {
    var xs, ys := c.times[..], c.data[..];
    assert xs[k] < xs[k + 1];
    assert xs[k + 1] <= xs[|xs| - 1];
    LinearBetweenNodes(xs, ys, k, t);
  }
}
