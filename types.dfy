/**
 * Shared data model of the catalog front-end: the product projection the
 * client holds, the discount records the calculator accumulates, the request
 * it hands to its callback, and the abstract outcome of a network call.
 *
 * JavaScript `number` values that are prices, quantities or discount amounts
 * are modelled as `real`; page numbers and server ids as `int`.
 */
module Types {

  datatype Option<+T> = None | Some(value: T)

  /** Result of an awaited HTTP call: the decoded payload, or a rejection. */
  datatype FetchOutcome<+T> = Fetched(payload: T) | FetchFailed

  /** JavaScript truthiness of a `string | null` value: the error fields
      are tested with `if (error)`. */
  predicate Truthy(s: Option<string>) {
    s.Some? && s.value != ""
  }

  /** A product as held by the client; `createdAt` is present on products
      that came from the paginated list. */
  datatype Product = Product(id: string, name: string, price: real, createdAt: Option<string>)

  /** Key and value of the buy-one-get-one entry of the discount-type table.
      The calculator compares the type string it is given with the upper-case
      key, while the server sends the lower-case value. */
  const BogoKey: string := "BOGO"
  const BogoValue: string := "bogo"

  /** A selected discount: its type string (`type` in the source) and an
      optional amount, absent for buy-one-get-one. */
  datatype DiscountType = DiscountType(kind: string, value: Option<real>)

  /** The request the calculator hands to its callback. */
  datatype DiscountCalculation = DiscountCalculation(productId: string, quantity: real, discountTypes: seq<DiscountType>)
}
