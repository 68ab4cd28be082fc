/** The admin console: an access guard at page load, product management
    (add, edit, delete), order status updates, dashboard counts, and the order
    list sorted newest first. */
module Admin {
  import opened Wrappers
  import opened Seqs
  import opened Records
  import opened Orders
  import Login

  /** The guard at the top of the page script: it proceeds only for a logged-in admin. */
  predicate AccessGranted(session: Session) {
    session.isLoggedIn == Some("true") && session.userRole == Some("admin")
  }

  /** After a successful login the guard lets exactly the admins in, and a
      cleared session never passes. */
  lemma GuardAfterLogin(u: User)
    ensures AccessGranted(Login.SessionFor(u)) <==> u.role == "admin"
    ensures !AccessGranted(ClearedSession)
  {
  }

  // ---- products ----

  /** `Math.max(...products.map(p => p.id))`, for a non-empty catalogue. */
  function MaxId(products: seq<Product>): (m: int)
    requires |products| > 0
    ensures forall p :: p in products ==> p.id <= m
    ensures exists p :: p in products && p.id == m
  {
    if |products| == 1 then products[0].id
    else
      var rest := MaxId(products[1..]);
      assert forall p :: p in products[1..] ==> p in products;
      if products[0].id >= rest then products[0].id else rest
  }

  /** The id a new product gets: one past the largest id, or 1 for an empty catalogue. */
  function NextProductId(products: seq<Product>): (id: int)
    ensures forall p :: p in products ==> p.id < id
    ensures |products| == 0 ==> id == 1
    ensures |products| > 0 ==> exists p :: p in products && id == p.id + 1
  {
    if |products| > 0 then MaxId(products) + 1 else 1
  }

  /** The product form: `id` is the hidden id field (None when empty, that is
      when adding), `price` the parsed price (None when it is not a number). */
  datatype ProductForm = ProductForm(id: Option<int>, name: string, price: Option<int>, image: string)

  datatype SubmitOutcome = Invalid | Updated | Missing | Inserted(id: int)

  datatype Submission = Submission(outcome: SubmitOutcome, products: seq<Product>)

  predicate FormComplete(form: ProductForm) {
    form.name != "" && form.price.Some? && form.image != ""
  }

  /** The product form submit: an incomplete form changes nothing; a form with
      an id replaces the first product with that id, if any; a form without
      one appends a product with the next id. */
  function Submit(products: seq<Product>, form: ProductForm): Submission {
    if !FormComplete(form) then Submission(Invalid, products)
    else if form.id.Some? then
      var k := IndexWhere(products, ProductWithId(form.id.value));
      if k > -1 then
        Submission(Updated, products[k := Product(form.id.value, form.name, form.price.value, form.image)])
      else Submission(Missing, products)
    else
      var id := NextProductId(products);
      Submission(Inserted(id), products + [Product(id, form.name, form.price.value, form.image)])
  }

  lemma SubmitIncompleteUnchanged(products: seq<Product>, form: ProductForm)
    requires form.name == "" || form.price.None? || form.image == ""
    ensures Submit(products, form) == Submission(Invalid, products)
  {
  }

  /** Adding appends one product at the end whose id no existing product has. */
  lemma SubmitAddsProduct(products: seq<Product>, form: ProductForm)
    requires FormComplete(form) && form.id.None?
    ensures var s := Submit(products, form);
      s.outcome.Inserted? &&
      s.products == products + [Product(s.outcome.id, form.name, form.price.value, form.image)] &&
      (forall j :: 0 <= j < |products| ==> products[j].id != s.outcome.id) &&
      (|products| == 0 ==> s.outcome.id == 1) &&
      (|products| > 0 ==> s.outcome.id == MaxId(products) + 1)
  {
    var id := NextProductId(products);
    forall j | 0 <= j < |products| ensures products[j].id != id {
      assert products[j] in products;
    }
  }

  /** Editing replaces only the first product with the form's id and keeps the
      length; an id that is not in the catalogue changes nothing. */
  lemma SubmitEditsProduct(products: seq<Product>, form: ProductForm)
    requires FormComplete(form) && form.id.Some?
    ensures var s := Submit(products, form);
      var k := IndexWhere(products, ProductWithId(form.id.value));
      (k < 0 ==> s == Submission(Missing, products)) &&
      (k >= 0 ==>
        s.outcome == Updated && |s.products| == |products| &&
        products[k].id == form.id.value &&
        s.products[k] == Product(form.id.value, form.name, form.price.value, form.image) &&
        forall j :: 0 <= j < |products| && j != k ==> s.products[j] == products[j])
  {
    var k := IndexWhere(products, ProductWithId(form.id.value));
    if k >= 0 {
      assert ProductWithId(form.id.value)(products[k]);
    }
  }

  /** Submitting keeps product ids unique. */
  lemma SubmitPreservesUniqueIds(products: seq<Product>, form: ProductForm)
    requires UniqueProductIds(products)
    ensures UniqueProductIds(Submit(products, form).products)
  {
    if FormComplete(form) {
      if form.id.Some? {
        var k := IndexWhere(products, ProductWithId(form.id.value));
        if k > -1 {
          assert ProductWithId(form.id.value)(products[k]);
        }
      } else {
        SubmitAddsProduct(products, form);
      }
    }
  }

  /** The edit button fills the form from the first product with that id. */
  function EditForm(products: seq<Product>, productId: int): Option<ProductForm> {
    var k := IndexWhere(products, ProductWithId(productId));
    if k < 0 then None
    else Some(ProductForm(Some(products[k].id), products[k].name, Some(products[k].price), products[k].image))
  }

  /** Opening a product for editing and saving the form untouched leaves the
      catalogue as it was. */
  lemma ResubmitUnchanged(products: seq<Product>, productId: int)
    requires EditForm(products, productId).Some?
    requires FormComplete(EditForm(products, productId).value)
    ensures Submit(products, EditForm(products, productId).value) == Submission(Updated, products)
  {
    var k := IndexWhere(products, ProductWithId(productId));
    assert ProductWithId(productId)(products[k]);
    assert products[k].id == productId;
    assert products[k := products[k]] == products;
  }

  /** Deleting drops every product with the id and keeps the others in order. */
  lemma DeleteRemovesExactly(products: seq<Product>, productId: int)
    ensures var r := Filter(products, ProductWithoutId(productId));
      (forall p :: p in r <==> p in products && p.id != productId) &&
      forall a, b :: products == a + b ==>
        r == Filter(a, ProductWithoutId(productId)) + Filter(b, ProductWithoutId(productId))
  {
    forall a, b | products == a + b
      ensures Filter(products, ProductWithoutId(productId)) ==
        Filter(a, ProductWithoutId(productId)) + Filter(b, ProductWithoutId(productId))
    {
      FilterAppend(a, b, ProductWithoutId(productId));
    }
  }

  // ---- orders ----

  /** `updateOrderStatus`: the first order with the id gets the new status. */
  function WithStatus(orders: seq<Order>, orderId: string, status: string): seq<Order> {
    var k := IndexWhere(orders, OrderWithId(orderId));
    if k < 0 then orders else orders[k := orders[k].(status := status)]
  }

  /** Only the status of the first order with the id changes; an unknown id
      changes nothing. */
  lemma StatusUpdateOnlyThatOrder(orders: seq<Order>, orderId: string, status: string)
    ensures var r := WithStatus(orders, orderId, status);
      var k := IndexWhere(orders, OrderWithId(orderId));
      |r| == |orders| &&
      ((forall j :: 0 <= j < |orders| ==> orders[j].orderId != orderId) ==> r == orders) &&
      (k >= 0 ==>
        orders[k].orderId == orderId && r[k] == orders[k].(status := status) &&
        forall j :: 0 <= j < |orders| && j != k ==> r[j] == orders[j])
  {
    var k := IndexWhere(orders, OrderWithId(orderId));
    if k >= 0 {
      assert OrderWithId(orderId)(orders[k]);
    }
  }

  // ---- dashboard ----

  function IsCustomer(u: User): bool {
    u.role == "customer"
  }

  datatype Stats = Stats(totalProducts: nat, totalOrders: nat, registeredUsers: nat)

  /** The three dashboard figures: products, orders, and users whose role is customer. */
  function Dashboard(products: seq<Product>, orders: seq<Order>, users: seq<User>): (stats: Stats)
    ensures stats.totalProducts == |products| && stats.totalOrders == |orders|
    ensures stats.registeredUsers == |CustomerPositions(users)|
  {
    RegisteredUsersAreCustomers(users);
    Stats(|products|, |orders|, |Filter(users, IsCustomer)|)
  }

  /** The positions of the customers in the user table. */
  function CustomerPositions(users: seq<User>): set<int> {
    set i | 0 <= i < |users| && users[i].role == "customer"
  }

  /** Appending a user adds its position exactly when it is a customer. */
  lemma CustomerPositionsSnoc(init: seq<User>, last: User)
    ensures CustomerPositions(init + [last]) ==
      CustomerPositions(init) + (if IsCustomer(last) then {|init|} else {})
    ensures |init| !in CustomerPositions(init)
  {
    var users := init + [last];
    forall i | 0 <= i < |init| ensures users[i] == init[i] {
    }
  }

  /** "Registered users" is the number of users whose role is customer. */
  lemma {:induction false} RegisteredUsersAreCustomers(users: seq<User>)
    ensures |Filter(users, IsCustomer)| == |CustomerPositions(users)|
  {
    if users != [] {
      var init, last := users[..|users| - 1], users[|users| - 1];
      assert users == init + [last];
      RegisteredUsersAreCustomers(init);
      FilterAppend(init, [last], IsCustomer);
      assert [last][1..] == [];
      CustomerPositionsSnoc(init, last);
    }
  }

  /** A successful signup adds one to "registered users"; a refused one adds nothing. */
  lemma SignupAddsCustomer(products: seq<Product>, orders: seq<Order>, users: seq<User>,
                           name: string, email: string, password: string, confirm: string)
    ensures var r := Login.Register(users, name, email, password, confirm);
      Dashboard(products, orders, r.users).registeredUsers ==
        Dashboard(products, orders, users).registeredUsers + (if r.outcome == Login.Created then 1 else 0)
  {
    var r := Login.Register(users, name, email, password, confirm);
    if r.outcome == Login.Created {
      var u := User(email, password, "customer", name);
      FilterAppend(users, [u], IsCustomer);
      assert [u][1..] == [];
    }
  }

  /** On a fresh store the two pages start from different user tables: the
      login page falls back to the seed accounts, the console to an empty
      table, and neither writes its fallback back. So the console first shows
      no registered users, and after the first signup, which stores the seed
      table plus the new customer, it shows two. */
  lemma FirstSignupOnFreshStore(products: seq<Product>, orders: seq<Order>,
                                name: string, email: string, password: string)
    requires email != "admin@bigfoot.com" && email != "user@example.com"
    ensures Dashboard(products, orders, Stored(None, [])).registeredUsers == 0
    ensures var r := Login.Register(Login.SeedUsers, name, email, password, password);
      r.outcome == Login.Created && Dashboard(products, orders, r.users).registeredUsers == 2
  {
    var seed := Login.SeedUsers;
    Login.RegisterOutcomes(seed, name, email, password, password);
    assert !(exists u :: u in seed && u.email == email);
    assert Filter(seed, IsCustomer) == [seed[1]] by {
      assert seed == [seed[0]] + [seed[1]];
      FilterCons(seed[0], [seed[1]], IsCustomer);
      FilterCons(seed[1], [], IsCustomer);
    }
    SignupAddsCustomer(products, orders, seed, name, email, password, password);
  }

  class AdminConsole {
    var active: bool
    var session: Session
    var products: seq<Product>
    var orders: seq<Order>
    var users: seq<User>

    /** Page load: without an admin session the script stops before loading
        anything or attaching any handler. */
    constructor (session: Session, storedProducts: Option<seq<Product>>,
                 storedOrders: Option<seq<Order>>, storedUsers: Option<seq<User>>)
      ensures active == AccessGranted(session) && this.session == session
      ensures active ==>
        products == Stored(storedProducts, []) &&
        orders == Stored(storedOrders, []) &&
        users == Stored(storedUsers, [])
      ensures !active ==> products == [] && orders == [] && users == []
    {
      this.session := session;
      if AccessGranted(session) {
        active := true;
        products := Stored(storedProducts, []);
        orders := Stored(storedOrders, []);
        users := Stored(storedUsers, []);
      } else {
        active := false;
        products := [];
        orders := [];
        users := [];
      }
    }

    /** The product form submit. */
    method SubmitProduct(form: ProductForm) returns (outcome: SubmitOutcome)
      requires active
      modifies this`products
      ensures Submit(old(products), form) == Submission(outcome, products)
      ensures UniqueProductIds(old(products)) ==> UniqueProductIds(products)
    {
      if UniqueProductIds(products) {
        SubmitPreservesUniqueIds(products, form);
      }
      if form.name == "" || form.price.None? || form.image == "" {
        return Invalid;
      }
      if form.id.Some? {
        var id := form.id.value;
        var k := FindIndex(products, ProductWithId(id));
        outcome := Missing;
        if k > -1 {
          products := products[k := Product(id, form.name, form.price.value, form.image)];
          outcome := Updated;
        }
      } else {
        var id := if |products| > 0 then MaxId(products) + 1 else 1;
        products := products + [Product(id, form.name, form.price.value, form.image)];
        outcome := Inserted(id);
      }
    }

    /** The delete button, once confirmed. */
    method DeleteProduct(productId: int, confirmed: bool)
      requires active
      modifies this`products
      ensures confirmed ==> products == Filter(old(products), ProductWithoutId(productId))
      ensures !confirmed ==> products == old(products)
      ensures UniqueProductIds(old(products)) ==> UniqueProductIds(products)
    {
      if confirmed {
        ghost var before := products;
        products := Filter(products, ProductWithoutId(productId));
        if UniqueProductIds(before) {
          var key := (p: Product) => p.id;
          FilterKeepsKeysDistinct(before, ProductWithoutId(productId), key);
          forall i, j | 0 <= i < j < |products| ensures products[i].id != products[j].id {
            assert key(products[i]) != key(products[j]);
          }
        }
      }
    }

    /** The status drop-down of an order. */
    method UpdateOrderStatus(orderId: string, newStatus: string) returns (found: bool)
      requires active
      modifies this`orders
      ensures orders == WithStatus(old(orders), orderId, newStatus)
      ensures found <==> exists j :: 0 <= j < |old(orders)| && old(orders)[j].orderId == orderId
    {
      var k := FindIndex(orders, OrderWithId(orderId));
      found := k > -1;
      if found {
        assert OrderWithId(orderId)(orders[k]);
        orders := orders[k := orders[k].(status := newStatus)];
      }
    }

    /** The order list: a copy sorted newest first, stable on equal dates;
        the stored array keeps its order. */
    method OrdersView() returns (view: seq<Order>)
      requires active
      ensures NewestFirst(view) && multiset(view) == multiset(orders)
      ensures forall d :: Filter(view, DatedOn(d)) == Filter(orders, DatedOn(d))
    {
      if |orders| == 0 {
        return [];
      }
      view := SortByDateDesc(orders);
      SortNewestFirst(orders);
      SortStableAll(orders);
    }

    /** The admin logout link, once confirmed. */
    method Logout(confirmed: bool)
      requires active
      modifies this`session
      ensures session == if confirmed then ClearedSession else old(session)
    {
      if confirmed {
        session := ClearedSession;
      }
    }
  }
}
