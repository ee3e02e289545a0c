/**
 * The product record the storefront receives from the remote catalog.
 * Only the fields the core reads are modelled; the record is immutable
 * once fetched, so it is a value type.
 */
module Catalog {

  /** A rating: the average score and the number of reviews behind it. */
  datatype Rating = Rating(rate: real, count: int)

  /**
   * A catalog product. Ids are integers assigned by the catalog; prices
   * and rates are JavaScript numbers, modelled as exact reals.
   */
  datatype Product = Product(
    id: int,
    title: string,
    price: real,
    category: string,
    image: string,
    rating: Rating
  )

}
