/** Currencies and cash amounts. */
module Currencies {

  /** A currency, identified by its ISO code; the default `Currency()` has the empty code. */
  datatype Currency = Currency(code: string)

  const EmptyCurrency: Currency := Currency("")

  /** An amount tagged with its currency. */
  datatype Money = Money(value: real, currency: Currency) {
    /** `Money * Real`: scales the amount and keeps the currency. */
    function Times(x: real): (m: Money)
      ensures m.currency == currency
      ensures m.value == 0.0 <==> value == 0.0 || x == 0.0
    {
      Money(value * x, currency)
    }
  }

  /** `Money()`: zero in the empty currency. */
  const EmptyMoney: Money := Money(0.0, EmptyCurrency)
}
