/** The storefront's records: a catalog product and a cart line. */
module Types {

  datatype Option<T> = None | Some(value: T)

  /** Money in whole cents. */
  type Cents = int

  /** A catalog entry. `category` is 'Note', 'Tool' or any other string;
      `filterCategory` is the year or elective group the browse filter uses. */
  datatype Product = Product(
    id: string,
    code: string,
    name: string,
    description: string,
    price: Cents,
    category: string,
    tags: seq<string>,
    image: string,
    filterCategory: string,
    googleDriveId: string)

  /** A cart line: every field of the product plus a quantity. */
  datatype CartItem = CartItem(product: Product, quantity: int)
  {
    function Id(): string { product.id }
  }
}
