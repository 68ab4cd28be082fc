/** The storefront page of the hosted-payment variant: the same cart handlers
    as the Big_Foot page, logout, the password form, and an order history that
    lists only the session user's orders, newest first. All arrays start empty
    when storage holds none. */
module Client {
  import opened Wrappers
  import opened Seqs
  import opened Records
  import opened Carts
  import opened Accounts
  import opened Orders

  /** The history filter: orders whose customer is exactly the session email. */
  function PlacedBy(email: Option<string>): Order -> bool {
    (o: Order) => Some(o.customerEmail) == email
  }

  class Storefront {
    var products: seq<Product>
    var orders: seq<Order>
    var users: seq<User>
    var cart: seq<CartLine>
    var session: Session

    constructor (storedProducts: Option<seq<Product>>, storedOrders: Option<seq<Order>>,
                 storedUsers: Option<seq<User>>, storedCart: Option<seq<CartLine>>, session: Session)
      ensures products == Stored(storedProducts, [])
      ensures orders == Stored(storedOrders, [])
      ensures users == Stored(storedUsers, [])
      ensures cart == Stored(storedCart, [])
      ensures this.session == session
    {
      products := Stored(storedProducts, []);
      orders := Stored(storedOrders, []);
      users := Stored(storedUsers, []);
      cart := Stored(storedCart, []);
      this.session := session;
    }

    /** The "Add to Cart" button. */
    method AddToCart(productId: int)
      modifies this`cart
      ensures cart == Added(old(cart), products, productId)
      ensures Valid(old(cart)) ==> Valid(cart)
      ensures (exists j :: 0 <= j < |products| && products[j].id == productId) ==>
        Count(cart) == Count(old(cart)) + 1
    {
      AddFacts(cart, products, productId);
      var p := FindIndex(products, ProductWithId(productId));
      if p > -1 {
        var k := FindIndex(cart, LineWithId(productId));
        if k > -1 {
          cart := cart[k := cart[k].(quantity := cart[k].quantity + 1)];
        } else {
          cart := cart + [CartLine(products[p], 1)];
        }
      }
    }

    /** The "+" and "-" buttons of a cart line. */
    method ChangeQuantity(itemId: int, change: int)
      modifies this`cart
      ensures cart == Adjusted(old(cart), itemId, change)
      ensures Valid(old(cart)) ==> Valid(cart)
    {
      if Valid(cart) {
        ChangePreservesValid(cart, itemId, change);
      }
      var k := FindIndex(cart, LineWithId(itemId));
      if k > -1 {
        ghost var before := cart;
        cart := cart[k := cart[k].(quantity := cart[k].quantity + change)];
        if cart[k].quantity <= 0 {
          assert LineWithId(itemId)(before[k]);
          FilterUpdateDropped(before, k, cart[k], LineWithoutId(itemId));
          RemoveFromCart(itemId);
        }
      }
    }

    /** The "Remove" button of a cart line. */
    method RemoveFromCart(itemId: int)
      modifies this`cart
      ensures cart == Without(old(cart), itemId)
      ensures Valid(old(cart)) ==> Valid(cart)
    {
      if Valid(cart) {
        RemovePreservesValid(cart, itemId);
      }
      cart := Filter(cart, LineWithoutId(itemId));
    }

    /** The logout link, once confirmed: session storage and the cart are cleared. */
    method Logout(confirmed: bool)
      modifies this`session, this`cart
      ensures confirmed ==> session == ClearedSession && cart == []
      ensures !confirmed ==> session == old(session) && cart == old(cart)
    {
      if confirmed {
        session := ClearedSession;
        cart := [];
      }
    }

    /** The password form submit (no message when nobody is logged in). */
    method SubmitPasswordChange(current: string, newPassword: string, confirm: string)
      returns (outcome: PasswordOutcome)
      modifies this`users
      ensures ChangePassword(old(users), session.userEmail, current, newPassword, confirm) ==
        PasswordChange(outcome, users)
    {
      if newPassword != confirm {
        return Mismatch;
      }
      if |newPassword| < 6 {
        return TooShort;
      }
      var userEmail := session.userEmail;
      outcome := NotLoggedIn;
      if Truthy(userEmail) {
        var k := FindIndex(users, UserWithEmail(userEmail.value));
        if k > -1 && users[k].password == current {
          users := users[k := users[k].(password := newPassword)];
          outcome := Changed;
        } else {
          outcome := WrongPassword;
        }
      }
    }

    /** The order-history tab: exactly the session user's orders, newest
        first and in stored order on equal dates; nothing when no email is in
        the session. */
    function OrderHistory(): (shown: seq<Order>)
      reads this
      ensures forall o :: o in shown <==> o in orders && Some(o.customerEmail) == session.userEmail
      ensures NewestFirst(shown)
      ensures multiset(shown) == multiset(Filter(orders, PlacedBy(session.userEmail)))
      ensures forall d ::
        Filter(shown, DatedOn(d)) == Filter(Filter(orders, PlacedBy(session.userEmail)), DatedOn(d))
      ensures session.userEmail == None ==> shown == []
    {
      var mine := Filter(orders, PlacedBy(session.userEmail));
      SortKeepsOrders(mine);
      SortNewestFirst(mine);
      SortStableAll(mine);
      var shown := SortByDateDesc(mine);
      // with no session email no order matches, so `mine`, and with it `shown`, is empty
      assert shown != [] ==> shown[0] in shown;
      shown
    }
  }
}
