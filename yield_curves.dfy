/** The discounting curve the engines read, reduced to what they use of it. */
module YieldCurves {
  import opened Common
  import opened Time

  /** A yield term structure: its reference date and its discount factor at each time. */
  datatype DiscountCurve = DiscountCurve(referenceDate: Date, discount: real -> real)

  /** A `Handle<YieldTermStructure>`, which may be empty. */
  type CurveHandle = Option<DiscountCurve>
}
