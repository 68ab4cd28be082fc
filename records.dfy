/** The records the storefront, login and admin pages share through browser
    storage, and the session keys they share through session storage.
    Prices and totals are whole cents; an order date is an abstract key that
    orders like the calendar date (the seed data writes it as YYYYMMDD). */
module Records {
  import opened Wrappers

  /** A catalogue entry. */
  datatype Product = Product(id: int, name: string, price: int, image: string)

  /** No two catalogue entries share an id. */
  predicate UniqueProductIds(products: seq<Product>) {
    forall i, j :: 0 <= i < j < |products| ==> products[i].id != products[j].id
  }

  /** A cart line: a copy of the product taken when it was first added, and a
      quantity. */
  datatype CartLine = CartLine(product: Product, quantity: int)

  /** What an order keeps of a cart line: no reference back to the product. */
  datatype OrderItem = OrderItem(name: string, quantity: int, price: int)

  datatype Order = Order(
    orderId: string,
    date: int,
    total: int,
    status: string,
    items: seq<OrderItem>,
    customerEmail: string)

  /** `role` is "admin" or "customer"; passwords are kept in plain text. */
  datatype User = User(email: string, password: string, role: string, name: string)

  /** The four session-storage keys the pages use; None is a key that is not set. */
  datatype Session = Session(
    isLoggedIn: Option<string>,
    userRole: Option<string>,
    userName: Option<string>,
    userEmail: Option<string>)

  /** Session storage after `sessionStorage.clear()`. */
  const ClearedSession := Session(None, None, None, None)

  /** JavaScript truthiness of a stored string: set and not empty. */
  predicate Truthy(v: Option<string>) {
    v.Some? && v.value != ""
  }

  /** `JSON.parse(storage.getItem(key)) || fallback`: a stored array, even an
      empty one, wins over the fallback; a missing key yields the fallback. */
  function Stored<T>(v: Option<seq<T>>, fallback: seq<T>): seq<T> {
    if v.Some? then v.value else fallback
  }

  // The lookup callbacks the scripts pass to `find`, `findIndex` and `filter`.

  function ProductWithId(id: int): Product -> bool {
    (p: Product) => p.id == id
  }

  function ProductWithoutId(id: int): Product -> bool {
    (p: Product) => p.id != id
  }

  function LineWithId(id: int): CartLine -> bool {
    (l: CartLine) => l.product.id == id
  }

  function LineWithoutId(id: int): CartLine -> bool {
    (l: CartLine) => l.product.id != id
  }

  function OrderWithId(orderId: string): Order -> bool {
    (o: Order) => o.orderId == orderId
  }

  function UserWithEmail(email: string): User -> bool {
    (u: User) => u.email == email
  }
}
