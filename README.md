# Big Foot storefront — a Dafny model

Big Foot is a small sneaker shop that runs in the browser. Three page scripts
share their data through browser storage:

- the **login page** (`Big_Foot/static/js/login.js`) holds the user table. It logs a user in by
  email and password and registers new customers.
- the **storefront** exists in two variants: `Big_Foot/static/js/client_side.js`, which
  places orders locally, and `static/js/client_side.js`, which hands checkout to an
  external payment page. Both keep a product catalogue, an order list, a user table and a
  shopping cart. They add, adjust and remove cart lines, log out, change the
  logged-in user's password and show that user's order history.
- the **admin console** (`static/js/admin_side.js`) is guarded at page load: only a logged-in
  admin gets in. It adds, edits and deletes products, changes order statuses, shows
  dashboard counts and lists the orders newest first.

Each page script becomes a class. Its fields are the arrays the script keeps in
closure variables, plus the session it reads. Its methods are the event handlers
that change those arrays. Each method's `ensures` ties the new state to a pure
function of the old state, and the properties the shop relies on are proved as lemmas
about those functions:

- the cart keeps one line per product with a positive quantity, and the cart count moves
  by the expected amount;
- checkout turns the cart into a "Processing" order and empties the cart;
- product ids stay unique under add, edit and delete;
- the admin's sorted order list is a newest-first permutation that keeps
  equal-dated orders in stored order;
- signup keeps emails distinct, and a changed password is the one the login form then accepts.

Modules:

| file | module | contents |
|---|---|---|
| `wrappers.dfy` | `Wrappers` | `Option` |
| `seqs.dfy` | `Seqs` | the array primitives the scripts use: `findIndex`/`find` (`IndexWhere`, `FindIndex`) and `filter` (`Filter`) |
| `records.dfy` | `Records` | products, cart lines, orders, users, the session, reading a stored array with a fallback |
| `carts.dfy` | `Carts` | the cart operations shared by both storefronts, the cart count and total |
| `orders.dfy` | `Orders` | the newest-first sort of orders |
| `accounts.dfy` | `Accounts` | the password-change rule shared by both storefronts |
| `login.dfy` | `Login` | the login page |
| `bigfoot_client.dfy` | `BigFootClient` | the storefront that places orders locally |
| `client.dfy` | `Client` | the storefront that uses an external checkout |
| `admin.dfy` | `Admin` | the admin console |

Browser storage is modelled as follows:

- Each `localStorage` array is an `Option<seq<…>>` argument of the page constructor, with
  `None` for a missing key. No page writes its fallback (seed data or an empty array) back at
  load. An array is written back (`save…`) by the handlers that may change it: the cart
  handlers, checkout, logout, signup, the password change, product submit and delete, and
  the order status update (`static/js/admin_side.js:256`). Some of them write it even when
  nothing in it changed (logout, removing an absent id, an unchanged product submit, an edit
  whose id matches no product, a delete that matches nothing). Until one of those handlers runs,
  another page can still find the key missing. The `save…` calls themselves are not modelled.
- `sessionStorage` is the `Session` value, and each key is an `Option<string>`.
- Prices and totals are integers in cents.
- Order dates are an integer key that sorts like the calendar date (YYYYMMDD in the seed orders).
- The clock and the answers to `confirm()` dialogs are method parameters.

## Model

| member | source | states |
|---|---|---|
| Seqs.IndexWhere | Big_Foot/static/js/client_side.js:219-220 | `findIndex`: -1 exactly when no element satisfies the test; otherwise the element at the index satisfies it and none before it does |
| Seqs.FindIndex | static/js/admin_side.js:253-254 | the search loop returns exactly `IndexWhere` |
| Seqs.Filter | Big_Foot/static/js/client_side.js:232 | `filter`: an element is in the result exactly when it is in the input and passes the test; the result is no longer than the input |
| Seqs.FilterAppend | static/js/client_side.js:168 | filtering a concatenation concatenates the filtered parts, so `filter` keeps relative order |
| Seqs.FilterKeepsAll | Big_Foot/static/js/client_side.js:397 | a test every element passes gives back the whole array |
| Seqs.FilterKeepsKeysDistinct | static/js/admin_side.js:197 | filtering an array whose elements have distinct keys leaves elements with distinct keys |
| Carts.Added | Big_Foot/static/js/client_side.js:146-153 | `addToCart`'s new cart, the specification the add handlers are proved against; its properties are the `Add…` and `CountAfterAdd` rows below |
| Carts.AddUnknownProduct | Big_Foot/static/js/client_side.js:146-148 | adding an id that is not in the catalogue leaves the cart unchanged |
| Carts.AddExistingLine | Big_Foot/static/js/client_side.js:149-151 | when a line for the product exists, the first such line gains one unit and every other line is unchanged |
| Carts.AddNewLine | Big_Foot/static/js/client_side.js:152-153 | otherwise a copy of the first catalogue product with that id is appended with quantity 1 |
| Carts.AddPreservesValid | static/js/client_side.js:85-93 | adding keeps one line per product id and positive quantities |
| Carts.Without | Big_Foot/static/js/client_side.js:231-232 | `removeFromCart`'s new cart: the `filter` of the lines whose product id differs; its properties are `RemoveExactly`, `RemovePreservesValid` and `CountAfterRemove` |
| Carts.RemoveExactly | Big_Foot/static/js/client_side.js:231-232 | removal drops exactly the lines with that id and keeps the rest in order |
| Carts.RemovePreservesValid | static/js/client_side.js:167-168 | removal keeps one line per id and positive quantities |
| Carts.Adjusted | Big_Foot/static/js/client_side.js:218-226 | `changeQuantity`'s new cart; its properties are the `Change…` and `CountAfterChange` rows below |
| Carts.ChangeAbsentLine | Big_Foot/static/js/client_side.js:218-220 | changing the quantity of an id not in the cart does nothing |
| Carts.ChangeKeepsLine | Big_Foot/static/js/client_side.js:221-226 | a change that leaves the quantity positive updates only the first line with that id, by the change |
| Carts.ChangeDropsLine | Big_Foot/static/js/client_side.js:221-223 | a change that brings the quantity to zero or below removes every line with that id, as the remove button does |
| Carts.ChangePreservesValid | static/js/client_side.js:154-165 | changing a quantity keeps one line per id and positive quantities |
| Carts.CountAfterAdd | Big_Foot/static/js/client_side.js:193 | the cart count rises by exactly one when the product exists |
| Carts.CountAfterChange | static/js/client_side.js:134 | the cart count moves by the change, or drops by the line's whole quantity when the line goes |
| Carts.CountAfterRemove | static/js/client_side.js:134 | removing a line lowers the cart count by that line's quantity, and by nothing when the id is absent |
| Carts.CountWithout | Big_Foot/static/js/client_side.js:193 | in a cart with one line per id, removing the line at a given position subtracts its quantity from the count |
| Carts.ComputeTotal | Big_Foot/static/js/client_side.js:163-188 | the total loop sums price times quantity over every cart line (`Total`) |
| Orders.InsertByDate | static/js/admin_side.js:216 | inserting an order into a sorted list adds exactly that order |
| Orders.SortByDateDesc | static/js/admin_side.js:216 | the sorted copy is a permutation of the orders |
| Orders.SortNewestFirst | static/js/admin_side.js:215-216 | the sorted copy has non-increasing dates |
| Orders.SortKeepsOrders | static/js/admin_side.js:216 | the sorted copy has the same length and exactly the same orders |
| Orders.SortStable | static/js/client_side.js:309 | orders with the same date keep their stored relative order (the sort is stable) |
| Accounts.ChangePassword | Big_Foot/static/js/client_side.js:357-385 | the password form's outcome and new user table, checks in the source's order; its properties are the three `Password…` rows below |
| Accounts.PasswordInputRejected | Big_Foot/static/js/client_side.js:357-365 | a mismatched confirmation, or a new password shorter than 6, is refused with that reason and changes no user |
| Accounts.PasswordChangeSucceedsIff | Big_Foot/static/js/client_side.js:373-385 | the password changes exactly when the inputs pass, a session email is present, and the first user with that email has the given current password; otherwise no user changes |
| Accounts.PasswordChangeOnlyOwner | static/js/client_side.js:285-290 | with distinct emails, a successful change touches only the session user's password, and emails stay distinct |
| Login.SeedEmailsDistinct | Big_Foot/static/js/login.js:12-15 | the two seed accounts have distinct emails |
| Login.Destination | Big_Foot/static/js/login.js:65-69 | admins go to the admin page and every other role to the storefront |
| Login.LoginSucceedsIff | Big_Foot/static/js/login.js:54 | the credential search finds a user exactly when some user has that email and that password |
| Login.Register | Big_Foot/static/js/login.js:83-101 | the signup form's outcome and new user table; its properties are `RegisterOutcomes` and `RegisterPreservesDistinct` |
| Login.RegisterOutcomes | Big_Foot/static/js/login.js:83-100 | signup is refused exactly on a password mismatch or a taken email, and leaves the table unchanged then; otherwise it appends a customer with the given details |
| Login.RegisterPreservesDistinct | Big_Foot/static/js/login.js:88-100 | signup keeps emails distinct |
| Login.NewPasswordLogsIn | Big_Foot/static/js/client_side.js:375-377 | after a successful password change the login search finds the user with the new password |
| Login.LoginPage.constructor | Big_Foot/static/js/login.js:12-15 | the user table is the stored one, or the two seed accounts when none is stored |
| Login.LoginPage.Login | Big_Foot/static/js/login.js:49-73 | succeeds exactly when some user matches both fields; on success the session holds the first match's role, name and email and the destination follows the role; on failure the session is unchanged |
| Login.LoginPage.SignUp | Big_Foot/static/js/login.js:76-107 | the new table and outcome are those of `Register`, and distinct emails stay distinct |
| BigFootClient.SeedProductIdsUnique | Big_Foot/static/js/client_side.js:4-41 | the six seed products have distinct ids |
| BigFootClient.ItemsOf | Big_Foot/static/js/client_side.js:250-254 | one order item per cart line, in order, with the line's name, quantity and price |
| BigFootClient.CustomerOf | Big_Foot/static/js/client_side.js:255 | every order names a non-empty customer: the session email when it is non-empty, and otherwise "guest" |
| BigFootClient.PlaceOrder | Big_Foot/static/js/client_side.js:245-256 | the order checkout builds from the cart; its property is `PlacedOrderCopiesCart` |
| BigFootClient.PlacedOrderCopiesCart | Big_Foot/static/js/client_side.js:245-256 | a placed order is "Processing", carries the cart total and the customer, and copies every cart line |
| BigFootClient.Storefront.constructor | Big_Foot/static/js/client_side.js:4-73 | stored arrays, falling back to the seed catalogue, the seed orders, no users and an empty cart |
| BigFootClient.Storefront.AddToCart | Big_Foot/static/js/client_side.js:146-159 | the cart becomes `Added`; the cart stays valid and its count rises by one when the product exists |
| BigFootClient.Storefront.ChangeQuantity | Big_Foot/static/js/client_side.js:218-229 | the cart becomes `Adjusted`, and it stays valid |
| BigFootClient.Storefront.RemoveFromCart | Big_Foot/static/js/client_side.js:231-235 | the cart becomes `Without`, and it stays valid |
| BigFootClient.Storefront.Checkout | Big_Foot/static/js/client_side.js:238-262 | an order is placed exactly when the cart is non-empty and the user confirms; the order built from the old cart is appended and the cart emptied; otherwise nothing changes |
| BigFootClient.Storefront.Logout | Big_Foot/static/js/client_side.js:304-314 | once confirmed, session and cart are cleared; otherwise nothing changes |
| BigFootClient.Storefront.SubmitPasswordChange | Big_Foot/static/js/client_side.js:351-389 | outcome and new user table are those of `ChangePassword` for the session email |
| BigFootClient.GuestsSeeAll | Big_Foot/static/js/client_side.js:397 | with no session email, or with "guest", the history filter keeps every order |
| BigFootClient.Storefront.OrderHistory | Big_Foot/static/js/client_side.js:391-397 | shows exactly the `filter` of the stored orders: those placed under the session email, in stored order. It shows every order when the email is missing or "guest" |
| Client.Storefront.constructor | static/js/client_side.js:5-16 | stored arrays, each falling back to empty |
| Client.Storefront.AddToCart | static/js/client_side.js:85-98 | the cart becomes `Added`; the cart stays valid and its count rises by one when the product exists |
| Client.Storefront.ChangeQuantity | static/js/client_side.js:154-165 | the cart becomes `Adjusted`, and it stays valid |
| Client.Storefront.RemoveFromCart | static/js/client_side.js:167-171 | the cart becomes `Without`, and it stays valid |
| Client.Storefront.Logout | static/js/client_side.js:227-237 | once confirmed, session and cart are cleared; otherwise nothing changes |
| Client.Storefront.SubmitPasswordChange | static/js/client_side.js:270-297 | outcome and new user table are those of `ChangePassword` for the session email |
| Client.Storefront.OrderHistory | static/js/client_side.js:299-309 | shows exactly the session user's orders, newest first, as a permutation of the filtered orders that keeps equal-dated orders in stored order, and nothing without a session email |
| Admin.GuardAfterLogin | static/js/admin_side.js:3-10 | the guard admits a freshly logged-in user exactly when the role is admin, and never admits a cleared session |
| Admin.MaxId | static/js/admin_side.js:158 | `Math.max` over the ids: no id exceeds it and some product has it |
| Admin.NextProductId | static/js/admin_side.js:158 | the new id exceeds every existing id; it is 1 for an empty catalogue and otherwise one past an existing id |
| Admin.Submit | static/js/admin_side.js:139-164 | the product form's outcome and new catalogue; its properties are the `Submit…` rows below and `ResubmitUnchanged` |
| Admin.SubmitIncompleteUnchanged | static/js/admin_side.js:144-147 | a missing name, an unparsable price or a missing image is refused and changes nothing |
| Admin.SubmitAddsProduct | static/js/admin_side.js:156-161 | adding appends one product whose id no existing product has: the maximum id plus one, or 1 |
| Admin.SubmitEditsProduct | static/js/admin_side.js:149-155 | editing replaces only the first product with that id and keeps the length; an unknown id changes nothing |
| Admin.SubmitPreservesUniqueIds | static/js/admin_side.js:149-161 | product ids stay unique across every form submit |
| Admin.EditForm | static/js/admin_side.js:182-192 | the form `editProduct` fills from the first product with the id, or none for an unknown id; its property is `ResubmitUnchanged` |
| Admin.ResubmitUnchanged | static/js/admin_side.js:182-192 | saving the edit form untouched leaves the catalogue as it was |
| Admin.DeleteRemovesExactly | static/js/admin_side.js:195-197 | deleting drops exactly the products with that id and keeps the others in order |
| Admin.WithStatus | static/js/admin_side.js:252-255 | `updateOrderStatus`'s new order list; its property is `StatusUpdateOnlyThatOrder` |
| Admin.StatusUpdateOnlyThatOrder | static/js/admin_side.js:252-255 | only the status of the first order with that id changes; an unknown id changes nothing |
| Admin.Dashboard | static/js/admin_side.js:89-94 | the dashboard shows the number of products, the number of orders, and the number of users whose role is customer |
| Admin.RegisteredUsersAreCustomers | static/js/admin_side.js:93 | the "registered users" figure is the number of users whose role is customer |
| Admin.SignupAddsCustomer | static/js/admin_side.js:89-94 | for a user table the console reads as stored, a successful signup raises "registered users" by one, and a refused one leaves it unchanged |
| Admin.FirstSignupOnFreshStore | static/js/admin_side.js:49 | on a fresh store the console first shows 0 registered users. The first signup stores the two seed accounts plus the new customer (Big_Foot/static/js/login.js:12-15, 100-101), so the figure becomes 2 |
| Admin.AdminConsole.constructor | static/js/admin_side.js:1-49 | the console is active exactly for an admin session; only then are the stored arrays loaded |
| Admin.AdminConsole.SubmitProduct | static/js/admin_side.js:136-169 | outcome and new catalogue are those of `Submit`, and ids stay unique |
| Admin.AdminConsole.DeleteProduct | static/js/admin_side.js:195-203 | once confirmed, the catalogue is filtered by id; ids stay unique; otherwise nothing changes |
| Admin.AdminConsole.UpdateOrderStatus | static/js/admin_side.js:252-260 | the orders become `WithStatus`, and `found` holds exactly when some order has that id |
| Admin.AdminConsole.OrdersView | static/js/admin_side.js:206-216 | the list shown is newest first, a permutation of the stored orders, and stable on equal dates |
| Admin.AdminConsole.Logout | static/js/admin_side.js:320-330 | once confirmed, the session is cleared; otherwise nothing changes |

## Left out

- Rendering, `alert` messages, modals, tabs and redirects are left out. Where a handler's path matters, its outcome is returned as a value. The login destination is returned as a page name.
- `renderProducts`, `renderUsers`, `showProfileSection`, `showAdminSection` and `updateProfileDetails` are left out. They only display data.
- The external checkout of `static/js/client_side.js:173-202` is left out. It is a network call to a payment service and never changes the cart or the orders; its empty-cart check changes nothing either. The server (`app.py`) is not part of this model.
- Prices and totals are integer cents, not floating point. `BigFootClient.Storefront.Checkout` uses the exact integer total; it does not re-parse the displayed, rounded text.
- Order dates are an abstract integer key. The model does not parse `new Date(...)`, so invalid dates (which make the comparator return NaN) are not modelled. The order id's clock digits and today's date are parameters.
- Loose equality (`==`, `!=`) between the string ids in form fields and the numeric ids in the catalogue is not modelled: ids are integers throughout.
- Corrupt storage is not modelled: a stored value that is not a JSON array, or JSON that does not parse.
- Password length is counted in characters, not UTF-16 code units.
- The pages share storage only across page loads. Each class is separate, and the cross-page facts are lemmas on the shared functions (`Login.NewPasswordLogsIn`, `Admin.GuardAfterLogin`, `Admin.SignupAddsCustomer`, `Admin.FirstSignupOnFreshStore`).
- Admin.SignupAddsCustomer: the +1 holds only once `bigfootUsers` is stored, that is, after the first signup. Before that the console reads an empty table while the login page uses the seed accounts, and the first signup moves the figure from 0 to 2 (`Admin.FirstSignupOnFreshStore`).
- The `localStorage.removeItem('userEmail')` in the admin logout is left out. No modelled state holds that key.
- `Client.Storefront.SubmitPasswordChange` reports `NotLoggedIn` when no email is in the session. That variant of the page stays silent in that case, but in both variants nothing changes.
