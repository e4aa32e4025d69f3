# BlueWear storefront: cart and view state, in Dafny

This project models the client-side state of the BlueWear storefront's root
component (`src/App.jsx`): the cart map from product id to cart line, the two
functional updaters behind the "Add", "+" and "-" buttons, the values derived
from the map (the cart list, the navigation bar's badge count, the cart page's
subtotal), the order payload that checkout posts, and the root's three pieces
of state (`view`, `cartMap`, `user`) with the transitions that overwrite them.

Modules:

- `CartStore` (`cart_store.dfy`): products, cart lines, the cart map and its
  invariant (each line sits under its own id and has quantity at least 1),
  `AddToCart`/`DecFromCart` as pure map-to-map functions, replay of any
  sequence of cart events, the derived cart list, its count and its subtotal.
  Prices are integer cents, so the subtotal is exact.
- `Navigation` (`navigation.dfy`): the seven views, the user record, and the
  screen that the render branches select, including the admin-role guard.
- `OrderPayloads` (`order_payloads.dfy`): the body posted by checkout, with
  the guest defaults and one item per cart line.
- `Storefront` (`storefront.dfy`): class `App` holding `view`, `cartMap` and
  `user`, with methods `Navigate`, `AddToCart`, `DecFromCart`, `LoggedIn` and
  `Checkout`, plus two client scenarios.
- `Wrappers` (`wrappers.dfy`): `Option`, standing for JavaScript's `null`.

`Object.values` lists integer-like keys in ascending order, then the other keys
in the order they were added. The model does not track that order. It takes the
order as a parameter `ks` with `IsKeyOrder(ks, m)`: every key exactly once; the
real order is one of these. The count, the subtotal and the payload's contents are
proved to be the same for every such order. `KeyOrderExists` shows that such
an order always exists, so the precondition of `Checkout` can always be met;
`KeysOf` computes one.

Points where the code's behaviour is easy to misread:

- `setView`, like `Navigate`, has no guard. The navigation bar offers the admin
  link only to admins (src/App.jsx:14-16), and the render checks the role again
  (line 331). A non-admin on the admin view, reachable in the model through
  `Navigate`, sees a blank page (`Rendered` returns `Blank`).
- `user?.name || 'Guest'` also falls back to `Guest` when the user's name is the
  empty string. The same holds for the e-mail and `guest@example.com`.
- The `account` view has no render branch, so it draws nothing under the bar.
- `addToCart` rebuilds the line from the product passed in (`{...p, quantity}`).
  On an existing id this replaces the stored product fields. Adding and then
  decrementing restores every key and quantity. It restores the product
  fields only when they had not changed (`AddThenDec`).

## Model

| member | source | states |
|---|---|---|
| CartStore.AddToCart | src/App.jsx:256-262 | a new id gets exactly one new line of quantity 1; an existing id keeps the key set and its quantity goes up by exactly 1; the line carries the product passed in; every other line is unchanged |
| CartStore.DecFromCart | src/App.jsx:264-275 | an absent id leaves the map unchanged; quantity 1 or less removes that key only; quantity 2 or more keeps the key and the product and lowers the quantity by exactly 1; no other line changes |
| CartStore.AddKeepsWellFormed | src/App.jsx:256-262 | adding keeps every line under its own id with quantity at least 1 |
| CartStore.DecKeepsWellFormed | src/App.jsx:264-275 | decrementing keeps every line under its own id with quantity at least 1, because a line that would reach 0 is deleted |
| CartStore.ReplayKeepsWellFormed | src/App.jsx:256-275 | any sequence of add and decrement events, applied in order to a well-formed map, yields a well-formed map |
| CartStore.ReplayFromEmptyIsWellFormed | src/App.jsx:244 | from the initial empty map, any sequence of add and decrement events leaves every quantity at least 1 |
| CartStore.AddThenDec | src/App.jsx:256-275 | on a well-formed map, add then decrement of the same product gives back the original map for a new id, and the original keys and quantities, with the new product fields, for an existing one |
| CartStore.CartLines | src/App.jsx:247 | the cart list holds, position by position, the map's value for each key in the engine's order |
| CartStore.KeyOrderLength | src/App.jsx:247 | any enumeration of the keys has exactly as many entries as the map |
| CartStore.KeyOrderExists | src/App.jsx:247 | every cart map has an enumeration order of its keys |
| CartStore.CartCount | src/App.jsx:294 | the badge count is the number of distinct lines in the map, whatever the order, and is 0 exactly for the empty map |
| CartStore.AddTwiceIsOneLine | src/App.jsx:258-260 | adding a product not yet in the cart twice gives one new line of quantity 2, one more key, and leaves every other line unchanged |
| CartStore.CartListsEveryLine | src/App.jsx:247 | under any enumeration order the cart list has as many entries as the map has keys and holds every line of the map, so each key's line sits at exactly one position |
| CartStore.CartLinesDistinct | src/App.jsx:247 | on a well-formed map, no two positions of the cart list hold the same line |
| CartStore.KeysOf | src/App.jsx:247 | computes an enumeration of the map's keys: each key exactly once and nothing else |
| CartStore.LineTotal | src/App.jsx:104 | a line of quantity 1 costs its price; a line with non-negative price and quantity at least 1 costs at least its price |
| CartStore.Subtotal | src/App.jsx:104 | the fold of the empty cart is 0, and a cart of non-negative prices and positive quantities has a non-negative subtotal |
| CartStore.SubtotalIgnoresOrder | src/App.jsx:104 | the left-to-right fold of price times quantity over the cart list equals the order-free sum over the map, for every enumeration order |
| CartStore.EmptyCartSubtotal | src/App.jsx:104 | the subtotal of the empty cart is 0 |
| CartStore.SubtotalAfterAdd | src/App.jsx:256-262 | adding a product whose stored fields are unchanged raises the subtotal by exactly its price |
| CartStore.SubtotalAfterDec | src/App.jsx:264-275 | decrementing a present line lowers the subtotal by exactly its price, deleted or not; an absent id leaves it unchanged |
| CartStore.ExampleSubtotal | src/App.jsx:104 | two lines, 2 at 1000 cents and 1 at 500 cents, total 2500 cents |
| Navigation.Rendered | src/App.jsx:296-336 | the admin console is drawn if and only if the view is admin and the user's role is admin; the page is blank exactly on the account view or on the admin view without that role |
| Navigation.IsAdmin | src/App.jsx:331 | nobody logged in is never an admin; an admin user has role "admin" |
| Navigation.OnlyAdminViewDependsOnUser | src/App.jsx:296-336 | on every view other than admin, the screen does not depend on who is logged in |
| OrderPayloads.Payload | src/App.jsx:279-284 | one item per cart line, in the same order, with that line's product id, title, price and quantity; name and e-mail come from the user when non-empty, and are Guest and guest@example.com when nobody is logged in or the user's value is empty; never empty; shipping address N/A |
| OrderPayloads.ItemOf | src/App.jsx:283 | the posted item carries the line's product id, title, price and quantity |
| OrderPayloads.ItemsTotalMatchesSubtotal | src/App.jsx:283 | items that describe the cart lines one for one total to the cart's subtotal |
| OrderPayloads.CheckoutItemsAreCartLines | src/App.jsx:283 | for any enumeration order, the posted items are exactly the map's lines, each once, and no other |
| OrderPayloads.CheckoutTotalIsSubtotal | src/App.jsx:283 | for any enumeration order, the posted items total to the order-free subtotal of the map |
| Storefront.App.constructor | src/App.jsx:242-245 | the initial state is the home view, the empty cart and no user |
| Storefront.App.Navigate | src/App.jsx:294 | the view becomes the target with no guard; cart and user are untouched |
| Storefront.App.AddToCart | src/App.jsx:256-262 | the cart map becomes the add updater applied to the old map; the invariant is kept; view and user are untouched |
| Storefront.App.DecFromCart | src/App.jsx:264-275 | the cart map becomes the decrement updater applied to the old map; the invariant is kept; view and user are untouched |
| Storefront.App.LoggedIn | src/App.jsx:330 | the user is set and the view becomes home; the cart is untouched |
| Storefront.App.Checkout | src/App.jsx:277-290 | on an empty cart nothing is posted and nothing changes; otherwise the payload built from the cart and the user is posted, the cart becomes empty and the view becomes orders; the user is untouched |
| Storefront.GuestBuysTwice | src/App.jsx:277-290 | a guest who adds one product twice and checks out posts one item of quantity 2 under the guest defaults, and ends on the orders view with an empty cart |
| Storefront.AdminGuard | src/App.jsx:331 | after login and navigation to the admin view, the console is shown if and only if the role is admin, and the page is blank otherwise |

## Left out

- Every `fetch`: `loadProducts`, `Login.handleLogin`, and the admin component's `load`, `addProduct`, `delProduct`, `markPaid` and `getReport`. They are HTTP calls to a backend that is not part of this model. The login form is represented only by its success callback, `LoggedIn`.
- The POST in `checkout` is a step that always completes. Its status is never checked, so an error response whose body is JSON still clears the cart, as in the model. Two failure paths are not modelled: `fetch` rejecting on a network failure, and `res.json()` rejecting on a body that is not JSON. In both the handler stops before clearing the cart and switching to the orders view, so cart and view stay as they were.
- The `products` state and the product lists on the home and shop pages: they only hold what `loadProducts` fetched. `AddToCart` takes the product as a parameter.
- `useEffect`, `useMemo`, `async` sequencing and React's re-rendering. Each handler is modelled as one atomic transition. `checkout` reads the `cart` and `user` of the render that created it; the model reads the current state, which is the same under one event at a time. Two consequences the model does not capture: lines added while the POST is in flight are wiped by `setCartMap({})` without ever being posted; and a second "Pay Now" click before the first POST resolves still sees the old, non-empty `cart` (the guard is at line 278, the clearing at line 287), so the program posts the order twice, whereas in the model a second `Checkout` sees an empty cart and posts nothing.
- The `onInc`/`onDec` closures stored in each line: they are `AddToCart(p)` and `DecFromCart(p.id)` called by id.
- The iteration order of `Object.values` (integer-like keys ascending, then the other keys in insertion order): the model does not track insertion order, so the order is a parameter, constrained only to list each key once; the real order is one such list.
- Floating-point prices, `toFixed(2)` and the admin form's `parseFloat`: prices are integer cents.
- JSX markup, `Navbar` (its account/login button, and its admin link, which is a role guard: it is drawn only when the user's role is admin), `ProductCard`, `Section`, the `alert` and the QR image.
- Keys are strings, as JavaScript object keys are; numeric ids that coerce to the same string are not distinguished.
- CartStore.AddToCart/CartStore.DecFromCart: `m[id]` also finds members inherited from `Object.prototype`. For an id such as `constructor` or `toString`, the code stores quantity NaN. The model assumes product ids never name such a member.
- `setView` accepts any string; the model admits only the seven view names the buttons pass.
