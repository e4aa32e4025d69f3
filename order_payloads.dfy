/**
 * The order that checkout posts: the customer's name and e-mail (or the guest
 * defaults), a fixed shipping placeholder, and one item per cart line.
 */
module OrderPayloads {
  import opened Wrappers
  import opened CartStore
  import opened Navigation

  datatype OrderItem = OrderItem(productId: ProductId, title: string, price: int, quantity: int)

  datatype OrderPayload = OrderPayload(
    customerName: string,
    customerEmail: string,
    shippingAddress: string,
    items: seq<OrderItem>)

  const GuestName := "Guest"
  const GuestEmail := "guest@example.com"
  const NoAddress := "N/A"

  /** The item carries the line's product id, title, price and quantity. */
  predicate Describes(item: OrderItem, line: Line) {
    && item.productId == line.product.id
    && item.title == line.product.title
    && item.price == line.product.price
    && item.quantity == line.quantity
  }

  /** `c => ({product_id, title, price, quantity})`: the posted item for one cart line. */
  function ItemOf(line: Line): (item: OrderItem)
    ensures Describes(item, line)
  {
    OrderItem(line.product.id, line.product.title, line.product.price, line.quantity)
  }

  /**
   * The payload built from the cart list and the current user. JavaScript's `||`
   * also falls back to the default when the user's name or e-mail is empty.
   */
  function Payload(cart: seq<Line>, user: Option<User>): (r: OrderPayload)
    ensures |r.items| == |cart|
    ensures forall i :: 0 <= i < |cart| ==> Describes(r.items[i], cart[i])
    ensures user.Some? && user.value.name != "" ==> r.customerName == user.value.name
    ensures user.Some? && user.value.email != "" ==> r.customerEmail == user.value.email
    ensures (user.None? || user.value.name == "") ==> r.customerName == GuestName
    ensures (user.None? || user.value.email == "") ==> r.customerEmail == GuestEmail
    ensures r.customerName != "" && r.customerEmail != ""
    ensures r.shippingAddress == NoAddress
  {
    var name := if user.Some? && user.value.name != "" then user.value.name else GuestName;
    var email := if user.Some? && user.value.email != "" then user.value.email else GuestEmail;
    OrderPayload(name, email, NoAddress, seq(|cart|, i requires 0 <= i < |cart| => ItemOf(cart[i])))
  }

  /** Price times quantity summed over the posted items. */
  function ItemsTotal(items: seq<OrderItem>): int
    decreases |items|
  {
    if items == [] then 0
    else ItemsTotal(items[..|items| - 1]) + items[|items| - 1].price * items[|items| - 1].quantity
  }

  lemma {:induction false} ItemsTotalMatchesSubtotal(cart: seq<Line>, items: seq<OrderItem>)
    requires |items| == |cart|
    requires forall i :: 0 <= i < |cart| ==> Describes(items[i], cart[i])
    ensures ItemsTotal(items) == Subtotal(cart)
    decreases |cart|
  {
    if cart != [] {
      var n := |cart| - 1;
      ItemsTotalMatchesSubtotal(cart[..n], items[..n]);
    }
  }

  /**
   * Whatever order the engine lists the lines in, the payload holds exactly the
   * cart's lines, each once, and nothing else.
   */
  lemma CheckoutItemsAreCartLines(m: CartMap, ks: seq<ProductId>, user: Option<User>)
    requires WellFormed(m) && IsKeyOrder(ks, m)
    ensures var items := Payload(CartLines(m, ks), user).items;
      && |items| == |m|
      && (forall i :: 0 <= i < |items| ==>
            items[i].productId in m && Describes(items[i], m[items[i].productId]))
      && (forall i, j :: 0 <= i < j < |items| ==> items[i].productId != items[j].productId)
      && (forall id :: id in m ==> exists i :: 0 <= i < |items| && items[i].productId == id)
  {
    var items := Payload(CartLines(m, ks), user).items;
    KeyOrderLength(ks, m);
    assert forall i :: 0 <= i < |items| ==> items[i].productId == ks[i];
    forall id | id in m
      ensures exists i :: 0 <= i < |items| && items[i].productId == id
    {
      var i :| 0 <= i < |ks| && ks[i] == id;
      assert items[i].productId == id;
    }
  }

  /** The posted order totals to the subtotal the cart page shows, whatever the order. */
  lemma CheckoutTotalIsSubtotal(m: CartMap, ks: seq<ProductId>, user: Option<User>)
    requires IsKeyOrder(ks, m)
    ensures ItemsTotal(Payload(CartLines(m, ks), user).items) == MapSubtotal(m)
  {
    var cart := CartLines(m, ks);
    ItemsTotalMatchesSubtotal(cart, Payload(cart, user).items);
    SubtotalIgnoresOrder(m, ks);
  }
}
