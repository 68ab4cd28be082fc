/** The Big_Foot storefront page: product grid, cart, simulated checkout that
    records an order in the shared order array, logout, the password form and
    the order history. Its closure variables are the fields of `Storefront`;
    what it reads from and writes to storage is the constructor's parameters
    and the fields themselves. */
module BigFootClient {
  import opened Wrappers
  import opened Seqs
  import opened Records
  import opened Carts
  import opened Accounts

  /** Image URLs of the seed catalogue. */
  const ClassicRunnerImage := "https://static.nike.com/a/images/t_PDP_1728_v1/f_auto,q_auto:eco,u_126ab356-44d8-4a06-89b4-fcdcc8df0245,c_scale,fl_relative,w_1.0,h_1.0,fl_layer_apply/7b2c9c44-da5b-478a-9e67-908b5c350ab6/AIR+JORDAN+1+LOW.png"
  const UrbanStrideImage := "https://static.nike.com/a/images/c_limit,w_592,f_auto/t_product_v1/u_126ab356-44d8-4a06-89b4-fcdcc8df0245,c_scale,fl_relative,w_1.0,h_1.0,fl_layer_apply/cd845740-9e8f-4f87-b2b0-bb9c4617bba9/AIR+JORDAN+4+RM.png"
  const HighTopProImage := "https://static.nike.com/a/images/c_limit,w_592,f_auto/t_product_v1/u_126ab356-44d8-4a06-89b4-fcdcc8df0245,c_scale,fl_relative,w_1.0,h_1.0,fl_layer_apply/31a10807-e6f9-4d5e-98c8-a55d33b6c820/JORDAN+LUKA+4+Q54.png"
  const RetroStyleImage := "https://static.nike.com/a/images/c_limit,w_592,f_auto/t_product_v1/u_126ab356-44d8-4a06-89b4-fcdcc8df0245,c_scale,fl_relative,w_1.0,h_1.0,fl_layer_apply/89235dab-3047-41d2-af7b-d0a77f43fe6a/AIR+JORDAN+1+HIGH+G.png"
  const SportGlideImage := "https://static.nike.com/a/images/c_limit,w_592,f_auto/t_product_v1/u_126ab356-44d8-4a06-89b4-fcdcc8df0245,c_scale,fl_relative,w_1.0,h_1.0,fl_layer_apply/a72a7c2d-0d61-499a-9042-58a2a022083b/JORDAN+MVP.png"
  const MinimalistFlexImage := "https://static.nike.com/a/images/c_limit,w_592,f_auto/t_product_v1/u_126ab356-44d8-4a06-89b4-fcdcc8df0245,c_scale,fl_relative,w_1.0,h_1.0,fl_layer_apply/222ae0d1-043e-448a-989c-7b618939d99b/JORDAN+CMFT+ERA.png"

  /** The catalogue the page starts from when none is stored. */
  const SeedProducts: seq<Product> := [
    Product(1, "Classic Runner", 120000, ClassicRunnerImage),
    Product(2, "Urban Stride", 155000, UrbanStrideImage),
    Product(3, "High-Top Pro", 180000, HighTopProImage),
    Product(4, "Retro Style", 98000, RetroStyleImage),
    Product(5, "Sport Glide", 130000, SportGlideImage),
    Product(6, "Minimalist Flex", 110000, MinimalistFlexImage)
  ]

  /** The orders the page starts from when none is stored. */
  const SeedOrders: seq<Order> := [
    Order("BF-2025001", 20250615, 275000, "Delivered",
      [OrderItem("Urban Stride", 1, 155000), OrderItem("Retro Style", 1, 98000), OrderItem("Sneaker Care Kit", 1, 22000)],
      "user@example.com"),
    Order("BF-2025002", 20250701, 120000, "Processing",
      [OrderItem("Classic Runner", 1, 120000)],
      "user@example.com")
  ]

  lemma SeedProductIdsUnique()
    ensures UniqueProductIds(SeedProducts)
    ensures forall j :: 0 <= j < |SeedProducts| ==> SeedProducts[j].id == j + 1
  {
  }

  /** What an order keeps of a cart line. */
  function ItemOf(l: CartLine): OrderItem {
    OrderItem(l.product.name, l.quantity, l.product.price)
  }

  /** The order's item list (`cart.map(...)`): one item per line, in cart order. */
  function ItemsOf(lines: seq<CartLine>): (items: seq<OrderItem>)
    ensures |items| == |lines|
    ensures forall k :: 0 <= k < |lines| ==> items[k] == ItemOf(lines[k])
  {
    if lines == [] then [] else [ItemOf(lines[0])] + ItemsOf(lines[1..])
  }

  /** The order's customer: the session email, or "guest" when it is unset or empty. */
  function CustomerOf(session: Session): (customer: string)
    ensures customer != ""
    ensures Truthy(session.userEmail) ==> customer == session.userEmail.value
    ensures customer != "guest" ==> Some(customer) == session.userEmail
  {
    if Truthy(session.userEmail) then session.userEmail.value else "guest"
  }

  /** The order checkout records for a cart. */
  function PlaceOrder(lines: seq<CartLine>, orderId: string, date: int, customer: string): Order {
    Order(orderId, date, Total(lines), "Processing", ItemsOf(lines), customer)
  }

  /** A placed order starts as "Processing", carries the cart total, and copies
      name, quantity and price of every cart line, in order. */
  lemma PlacedOrderCopiesCart(lines: seq<CartLine>, orderId: string, date: int, customer: string)
    ensures var o := PlaceOrder(lines, orderId, date, customer);
      o.status == "Processing" && o.total == Total(lines) && o.customerEmail == customer &&
      |o.items| == |lines| &&
      forall k :: 0 <= k < |lines| ==>
        o.items[k].name == lines[k].product.name &&
        o.items[k].quantity == lines[k].quantity &&
        o.items[k].price == lines[k].product.price
  {
  }

  /** The history filter: the session user's orders, or every order when the
      session email is missing or is "guest". */
  function VisibleTo(email: Option<string>): Order -> bool {
    (o: Order) => Some(o.customerEmail) == email || email == None || email == Some("guest")
  }

  /** Without a session email, or with "guest", the filter lets every order through. */
  lemma GuestsSeeAll(orders: seq<Order>, email: Option<string>)
    ensures email == None || email == Some("guest") ==> Filter(orders, VisibleTo(email)) == orders
  {
    if email == None || email == Some("guest") {
      FilterKeepsAll(orders, VisibleTo(email));
    }
  }

  class Storefront {
    var products: seq<Product>
    var orders: seq<Order>
    var users: seq<User>
    var cart: seq<CartLine>
    var session: Session

    /** Page load: stored arrays, or the seed catalogue and orders, no users and
        an empty cart. */
    constructor (storedProducts: Option<seq<Product>>, storedOrders: Option<seq<Order>>,
                 storedUsers: Option<seq<User>>, storedCart: Option<seq<CartLine>>, session: Session)
      ensures products == Stored(storedProducts, SeedProducts)
      ensures orders == Stored(storedOrders, SeedOrders)
      ensures users == Stored(storedUsers, [])
      ensures cart == Stored(storedCart, [])
      ensures this.session == session
    {
      products := Stored(storedProducts, SeedProducts);
      orders := Stored(storedOrders, SeedOrders);
      users := Stored(storedUsers, []);
      cart := Stored(storedCart, []);
      this.session := session;
    }

    /** The "Add to Cart" button. */
    method AddToCart(productId: int)
      modifies this`cart
      ensures cart == Added(old(cart), products, productId)
      ensures Valid(old(cart)) ==> Valid(cart)
      ensures (exists j :: 0 <= j < |products| && products[j].id == productId) ==>
        Count(cart) == Count(old(cart)) + 1
    {
      AddFacts(cart, products, productId);
      var p := FindIndex(products, ProductWithId(productId));
      if p > -1 {
        var k := FindIndex(cart, LineWithId(productId));
        if k > -1 {
          cart := cart[k := cart[k].(quantity := cart[k].quantity + 1)];
        } else {
          cart := cart + [CartLine(products[p], 1)];
        }
      }
    }

    /** The "+" and "-" buttons of a cart line. */
    method ChangeQuantity(itemId: int, change: int)
      modifies this`cart
      ensures cart == Adjusted(old(cart), itemId, change)
      ensures Valid(old(cart)) ==> Valid(cart)
    {
      if Valid(cart) {
        ChangePreservesValid(cart, itemId, change);
      }
      var k := FindIndex(cart, LineWithId(itemId));
      if k > -1 {
        ghost var before := cart;
        cart := cart[k := cart[k].(quantity := cart[k].quantity + change)];
        if cart[k].quantity <= 0 {
          assert LineWithId(itemId)(before[k]);
          FilterUpdateDropped(before, k, cart[k], LineWithoutId(itemId));
          RemoveFromCart(itemId);
        }
      }
    }

    /** The "Remove" button of a cart line. */
    method RemoveFromCart(itemId: int)
      modifies this`cart
      ensures cart == Without(old(cart), itemId)
      ensures Valid(old(cart)) ==> Valid(cart)
    {
      if Valid(cart) {
        RemovePreservesValid(cart, itemId);
      }
      cart := Filter(cart, LineWithoutId(itemId));
    }

    /** The checkout button: nothing on an empty cart or a declined
        confirmation; otherwise one "Processing" order built from the cart is
        appended to the orders and the cart is emptied. `stamp` stands for the
        last seven digits of the clock, `date` for today. */
    method Checkout(confirmed: bool, stamp: string, date: int) returns (placed: bool)
      modifies this`orders, this`cart
      ensures placed <==> |old(cart)| > 0 && confirmed
      ensures placed ==> orders == old(orders) + [PlaceOrder(old(cart), "BF-" + stamp, date, CustomerOf(session))]
      ensures placed ==> cart == []
      ensures !placed ==> orders == old(orders) && cart == old(cart)
    {
      if |cart| == 0 {
        return false;
      }
      if !confirmed {
        return false;
      }
      var total := ComputeTotal(cart);
      var order := Order("BF-" + stamp, date, total, "Processing", ItemsOf(cart), CustomerOf(session));
      orders := orders + [order];
      cart := [];
      placed := true;
    }

    /** The logout link, once confirmed: session storage and the cart are cleared. */
    method Logout(confirmed: bool)
      modifies this`session, this`cart
      ensures confirmed ==> session == ClearedSession && cart == []
      ensures !confirmed ==> session == old(session) && cart == old(cart)
    {
      if confirmed {
        session := ClearedSession;
        cart := [];
      }
    }

    /** The password form submit. */
    method SubmitPasswordChange(current: string, newPassword: string, confirm: string)
      returns (outcome: PasswordOutcome)
      modifies this`users
      ensures ChangePassword(old(users), session.userEmail, current, newPassword, confirm) ==
        PasswordChange(outcome, users)
    {
      if newPassword != confirm {
        return Mismatch;
      }
      if |newPassword| < 6 {
        return TooShort;
      }
      var userEmail := session.userEmail;
      if Truthy(userEmail) {
        var k := FindIndex(users, UserWithEmail(userEmail.value));
        if k > -1 && users[k].password == current {
          users := users[k := users[k].(password := newPassword)];
          outcome := Changed;
        } else {
          outcome := WrongPassword;
        }
      } else {
        outcome := NotLoggedIn;
      }
    }

    /** The order-history tab: the session user's orders in stored order, or
        every order when no user (or "guest") is in the session. */
    function OrderHistory(): (shown: seq<Order>)
      reads this
      ensures forall o :: o in shown <==>
        o in orders &&
        (Some(o.customerEmail) == session.userEmail || session.userEmail == None || session.userEmail == Some("guest"))
      ensures session.userEmail == None || session.userEmail == Some("guest") ==> shown == orders
      ensures shown == Filter(orders, VisibleTo(session.userEmail))
    {
      GuestsSeeAll(orders, session.userEmail);
      Filter(orders, VisibleTo(session.userEmail))
    }
  }
}
