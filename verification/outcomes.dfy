/**
 * Outcome of the live ("try") path of a facade: a value, or the reason the
 * source would have raised and then fallen back to its static table.
 */
module Outcomes {

  /** Why the live path of a facade gives up. */
  datatype Error =
    | ProviderUnavailable  // the market-data or FRED call raised (network, auth, rate limit, parsing)
    | DivisionByZero       // a zero baseline price or annual mean
    | NoData               // `years_list[0]` on an empty list

  datatype Outcome<+T> = Success(value: T) | Failure(error: Error)
}
