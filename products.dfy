/**
 * A product row as the listing endpoints return it, and as a cart entry
 * stores it: a cart entry is a shallow copy of a product whose `quantity`
 * counts the units wanted instead of the units in stock.
 */
module Products {
  import opened Wrappers

  datatype Product = Product(
    productId: int,
    farmerId: int,
    productName: string,
    description: Option<string>,
    price: real,
    quantity: int,
    image: Option<string>)

  /** Two records agree on every field except `quantity`. */
  predicate SameExceptQuantity(a: Product, b: Product)
  {
    a.(quantity := 0) == b.(quantity := 0)
  }
}
