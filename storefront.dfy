/**
 * The root component as a stateful store: the current view, the cart map and
 * the logged-in user, overwritten by the navigation buttons, the cart buttons,
 * the login callback and checkout.
 */
module Storefront {
  import opened Wrappers
  import opened CartStore
  import opened Navigation
  import opened OrderPayloads

  class App {
    var view: View
    var cartMap: CartMap
    var user: Option<User>

    ghost predicate Valid()
      reads this
    {
      WellFormed(cartMap)
    }

    /** The first render: the home view, an empty cart, nobody logged in. */
    constructor ()
      ensures Valid()
      ensures view == Home && cartMap == map[] && user == None
    {
      view := Home;
      cartMap := map[];
      user := None;
    }

    /** `setView(target)`, from the navigation bar and the home page's buttons: no guard. */
    method Navigate(target: View)
      modifies this`view
      ensures view == target
    {
      view := target;
    }

    method AddToCart(p: Product)
      requires Valid()
      modifies this`cartMap
      ensures Valid()
      ensures cartMap == CartStore.AddToCart(old(cartMap), p)
    {
      AddKeepsWellFormed(cartMap, p);
      cartMap := CartStore.AddToCart(cartMap, p);
    }

    method DecFromCart(id: ProductId)
      requires Valid()
      modifies this`cartMap
      ensures Valid()
      ensures cartMap == CartStore.DecFromCart(old(cartMap), id)
    {
      DecKeepsWellFormed(cartMap, id);
      cartMap := CartStore.DecFromCart(cartMap, id);
    }

    /** The login form's callback: remember the user and go home. */
    method LoggedIn(u: User)
      modifies this`user, this`view
      ensures user == Some(u) && view == Home
    {
      user := Some(u);
      view := Home;
    }

    /**
     * Checkout. `order` is the order in which the engine lists the map's values.
     * The POST is a step that always completes (its response is never checked);
     * `sent` is the body posted, or None when nothing is posted.
     */
    method Checkout(order: seq<ProductId>) returns (sent: Option<OrderPayload>)
      requires Valid() && IsKeyOrder(order, cartMap)
      modifies this`cartMap, this`view
      ensures Valid()
      ensures old(cartMap) == map[] ==> sent == None && cartMap == old(cartMap) && view == old(view)
      ensures old(cartMap) != map[] ==>
        && sent == Some(Payload(CartLines(old(cartMap), order), user))
        && cartMap == map[] && view == Orders
    {
      var cart := CartLines(cartMap, order);
      KeyOrderLength(order, cartMap);
      if |cart| == 0 {
        return None;
      }
      sent := Some(Payload(cart, user));
      cartMap := map[];
      view := Orders;
    }
  }

  /**
   * A guest adds one product twice and pays: one item of quantity 2 is posted
   * under the guest defaults, the cart empties and the orders view is shown.
   */
  method GuestBuysTwice(p: Product) returns (sent: Option<OrderPayload>, after: View, lines: nat)
    ensures sent.Some?
    ensures sent.value.customerName == GuestName && sent.value.customerEmail == GuestEmail
    ensures |sent.value.items| == 1 && sent.value.items[0].productId == p.id
    ensures sent.value.items[0].quantity == 2
    ensures after == Orders && lines == 0
  {
    var app := new App();
    app.AddToCart(p);
    app.AddToCart(p);
    app.Navigate(Cart);
    assert app.cartMap.Keys == {p.id};
    sent := app.Checkout([p.id]);
    after := app.view;
    lines := |app.cartMap|;
  }

  /** A customer who opens the admin view sees nothing; an admin sees the console. */
  method AdminGuard(u: User) returns (shown: Screen)
    ensures shown == AdminConsole <==> u.role == "admin"
    ensures shown != AdminConsole ==> shown == Blank
  {
    var app := new App();
    app.LoggedIn(u);
    app.Navigate(Admin);
    shown := Rendered(app.view, app.user);
  }
}
