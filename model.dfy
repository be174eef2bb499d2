/** Records stored in the two tables of the commodity service, and the values
    the services hand back to their callers. */
module Model {

  datatype Option<+T> = None | Some(value: T)

  datatype Result<+T, +E> = Ok(value: T) | Err(error: E)

  /** Product.Status: 0 = off the shelf, 1 = on the shelf. */
  const ProductStatusUnpublished := 0
  const ProductStatusPublished := 1

  /** ShoppingCartItem.SelectStatus. */
  const CartItemStatusUnselected := 1
  const CartItemStatusSelected := 2

  /** A row of the `products` table. `version` is the token the stock CAS
      compares; `updatedAt` is the row's last-update time, abstracted to an
      integer clock reading. Prices are integer cents. */
  datatype Product = Product(
    id: int,
    name: string,
    category: string,
    price: int,
    desc: string,
    stock: int,
    picInfo: string,
    dimensions: string,
    material: string,
    weight: string,
    capacity: string,
    careInstructions: string,
    status: int,
    version: int,
    updatedAt: int)

  /** A row of the `shopping_cart_items` table. */
  datatype CartItem = CartItem(id: int, userId: int, productId: int, quantity: int, selectStatus: int)

  /** Failures a table operation can report. */
  datatype DbError =
    | RecordNotFound  // gorm.ErrRecordNotFound from First
    | NoRowsAffected  // an UPDATE that matched no row, reported as "product not found"
    | DuplicateKey    // the unique (user_id, product_id) index rejected a write
    | MissingWhereClause // gorm.ErrMissingWhereClause: a delete with a zero primary key
    | Unavailable     // any other database failure

  /** The merchant-facing product view (no id). */
  datatype ProductInfo = ProductInfo(
    name: string,
    category: string,
    price: int,
    desc: string,
    stock: int,
    picInfo: string,
    dimensions: string,
    material: string,
    weight: string,
    capacity: string,
    careInstructions: string,
    status: int)

  /** The list/cart view of a product. */
  datatype ProductSimplifiedInfo = ProductSimplifiedInfo(
    id: int,
    name: string,
    category: string,
    price: int,
    desc: string,
    stock: int,
    picInfo: string,
    status: int)
}
