/** Failure-carrying results and QuantLib's Null value for reals. */
module Common {

  datatype Option<+T> = None | Some(value: T)

  /** What a QuantLib routine returns, or the error it raises with QL_REQUIRE / QL_FAIL. */
  datatype Result<+T, +E> = Success(value: T) | Failure(error: E)

  /** `Null<Real>()`: QuantLib's sentinel for "no value", the largest single-precision float. */
  const NullReal: real := 340282346638528859811704183484516925440.0
}
