/** The records of the storefront: the unified product and the checkout form. */
module Types {
  import opened Wrappers

  /** The result of `parseInt`: a number, or `NaN` for input with no leading digits. */
  datatype ParsedInt = Int(n: int) | NaN

  /** A quality score (`rate`) and a popularity figure (`count`). */
  datatype Rating = Rating(rate: real, count: int)

  /** The unified product schema every page consumes. */
  datatype Product = Product(
    id: int,
    title: string,
    price: real,
    description: string,
    category: string,
    image: string,
    rating: Rating)

  /** The checkout form; the three card fields are optional in the record type. */
  datatype CheckoutFormData = CheckoutFormData(
    firstName: string,
    lastName: string,
    email: string,
    address: string,
    city: string,
    postalCode: string,
    country: string,
    paymentMethod: string,
    cardNumber: Option<string>,
    cardExpiry: Option<string>,
    cardCvc: Option<string>)
}
