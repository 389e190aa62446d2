/** The catalog and cart records. Timestamps are milliseconds since the epoch; prices are exact reals. */
module ProductTypes {
  import opened Wrappers

  /** The ten product categories. */
  datatype Category =
    | SmoothieBowl | PancakesWaffles | TofuScramble | OatmealPorridge | BreakfastBurrito
    | AvocadoToast | ChiaPudding | GranolaMuesli | FruitBowl | Beverages

  /** A catalog entry. The nutrition facts are left out: nothing reads them. */
  datatype Product = Product(
    id: string,
    name: string,
    description: string,
    category: Category,
    price: real,
    currency: string,
    imageUrl: string,
    inStock: bool,
    stockQuantity: int,
    ingredients: seq<string>,
    allergens: seq<string>,
    tags: seq<string>,
    createdAt: int,
    updatedAt: int)

  /** One line of a cart. */
  datatype CartItem = CartItem(productId: string, quantity: int, addedAt: int)

  /** A shopping cart; `items` is kept in insertion order. */
  datatype Cart = Cart(id: string, userId: Option<string>, items: seq<CartItem>, createdAt: int, updatedAt: int)
}
