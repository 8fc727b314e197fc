/** Prices as the tracker compares them. */
module Prices {
  /** A price in integer cents. */
  type Price = int
}
