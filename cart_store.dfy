/**
 * The storefront's cart store: a map from product id to cart line, the two
 * functional updaters that the root component hands to `setCartMap`, and the
 * values derived from the map (the cart list, its badge count, its subtotal).
 * Prices are integer cents, so the subtotal is exact.
 */
module CartStore {
  import opened Wrappers

  type ProductId = string

  datatype Product = Product(
    id: ProductId,
    title: string,
    price: int,            // cents
    description: string,
    imageUrl: Option<string>)

  /** A cart line: the product's fields plus a quantity. */
  datatype Line = Line(product: Product, quantity: int)

  type CartMap = map<ProductId, Line>

  /** The store's invariant: every line sits under its own product id and has quantity at least 1. */
  ghost predicate WellFormed(m: CartMap) {
    forall id :: id in m ==> m[id].product.id == id && m[id].quantity >= 1
  }

  /** The updater of `addToCart(p)`: a new line of quantity 1, or the old quantity plus one. */
  function AddToCart(m: CartMap, p: Product): (r: CartMap)
    ensures p.id !in m ==> r.Keys == m.Keys + {p.id} && r[p.id].quantity == 1
    ensures p.id in m ==> r.Keys == m.Keys && r[p.id].quantity == m[p.id].quantity + 1
    ensures r[p.id].product == p
    ensures forall id :: id in m && id != p.id ==> r[id] == m[id]
  {
    var quantity := if p.id in m then m[p.id].quantity + 1 else 1;
    m[p.id := Line(p, quantity)]
  }

  /** The updater of `decFromCart(id)`: no-op when absent, otherwise one less, dropping the line at zero. */
  function DecFromCart(m: CartMap, id: ProductId): (r: CartMap)
    ensures id !in m ==> r == m
    ensures id in m && m[id].quantity <= 1 ==> r.Keys == m.Keys - {id}
    ensures id in m && m[id].quantity > 1 ==>
      r.Keys == m.Keys && r[id].product == m[id].product && r[id].quantity == m[id].quantity - 1
    ensures forall k :: k in r && k != id ==> k in m && r[k] == m[k]
  {
    if id !in m then m
    else
      var q := m[id].quantity - 1;
      if q <= 0 then m - {id}
      else m[id := m[id].(quantity := q)]
  }

  lemma AddKeepsWellFormed(m: CartMap, p: Product)
    requires WellFormed(m)
    ensures WellFormed(AddToCart(m, p))
  {
  }

  lemma DecKeepsWellFormed(m: CartMap, id: ProductId)
    requires WellFormed(m)
    ensures WellFormed(DecFromCart(m, id))
  {
  }

  /** A click on "Add"/"+" or on "-", as seen by the cart store. */
  datatype CartEvent = Add(product: Product) | Dec(id: ProductId)

  function Apply(m: CartMap, e: CartEvent): CartMap {
    match e
    case Add(p) => AddToCart(m, p)
    case Dec(id) => DecFromCart(m, id)
  }

  /** The map after the events, applied in order, as successive `setCartMap` updaters. */
  function Replay(m: CartMap, events: seq<CartEvent>): CartMap
    decreases |events|
  {
    if events == [] then m else Replay(Apply(m, events[0]), events[1..])
  }

  /** No sequence of adds and decrements ever leaves a line with quantity below 1. */
  lemma {:induction false} ReplayKeepsWellFormed(m: CartMap, events: seq<CartEvent>)
    requires WellFormed(m)
    ensures WellFormed(Replay(m, events))
    decreases |events|
  {
    if events != [] {
      match events[0] {
        case Add(p) => AddKeepsWellFormed(m, p);
        case Dec(id) => DecKeepsWellFormed(m, id);
      }
      ReplayKeepsWellFormed(Apply(m, events[0]), events[1..]);
    }
  }

  lemma ReplayFromEmptyIsWellFormed(events: seq<CartEvent>)
    ensures var m := Replay(map[], events);
      forall id :: id in m ==> m[id].quantity >= 1
  {
    ReplayKeepsWellFormed(map[], events);
  }

  /** Adding a product and taking it off again restores every key and every quantity. */
  lemma AddThenDec(m: CartMap, p: Product)
    requires WellFormed(m)
    ensures p.id !in m ==> DecFromCart(AddToCart(m, p), p.id) == m
    ensures p.id in m ==> DecFromCart(AddToCart(m, p), p.id) == m[p.id := Line(p, m[p.id].quantity)]
  {
  }

  // ---- the derived cart list ---------------------------------------------------

  /**
   * `ks` is an enumeration order of the map's keys: each key once, nothing else.
   * `Object.values` visits integer-like keys in ascending order, then the other
   * keys in the order they were added; the model does not track that order, and
   * the real order is one of these.
   */
  ghost predicate IsKeyOrder(ks: seq<ProductId>, m: CartMap) {
    && (forall i, j :: 0 <= i < j < |ks| ==> ks[i] != ks[j])
    && (forall id :: id in m <==> id in ks)
  }

  /** `cart`: the map's values, listed in the key order `ks`. */
  function CartLines(m: CartMap, ks: seq<ProductId>): (lines: seq<Line>)
    requires forall i :: 0 <= i < |ks| ==> ks[i] in m
    ensures |lines| == |ks|
    ensures forall i :: 0 <= i < |ks| ==> lines[i] == m[ks[i]]
  {
    seq(|ks|, i requires 0 <= i < |ks| => m[ks[i]])
  }

  /** Dropping the last key of an order leaves an order of the map without that key. */
  lemma KeyOrderDropLast(ks: seq<ProductId>, m: CartMap)
    requires IsKeyOrder(ks, m) && ks != []
    ensures ks[|ks| - 1] in m
    ensures IsKeyOrder(ks[..|ks| - 1], m - {ks[|ks| - 1]})
    ensures |m - {ks[|ks| - 1]}| == |m| - 1
  {
  }

  lemma {:induction false} KeyOrderLength(ks: seq<ProductId>, m: CartMap)
    requires IsKeyOrder(ks, m)
    ensures |ks| == |m|
    decreases |ks|
  {
    if ks == [] {
      assert m.Keys == {};
    } else {
      var n := |ks| - 1;
      KeyOrderDropLast(ks, m);
      KeyOrderLength(ks[..n], m - {ks[n]});
    }
  }

  /** Under any enumeration order, the cart list holds every line of the map at least once. */
  lemma CartListsEveryLine(m: CartMap, ks: seq<ProductId>)
    requires IsKeyOrder(ks, m)
    ensures |CartLines(m, ks)| == |m|
    ensures forall id :: id in m ==> exists i :: 0 <= i < |ks| && CartLines(m, ks)[i] == m[id]
  {
    KeyOrderLength(ks, m);
    var lines := CartLines(m, ks);
    forall id | id in m
      ensures exists i :: 0 <= i < |ks| && lines[i] == m[id]
    {
      var i :| 0 <= i < |ks| && ks[i] == id;
      assert lines[i] == m[id];
    }
  }

  /** With the invariant, the positions of the cart list hold pairwise different lines. */
  lemma CartLinesDistinct(m: CartMap, ks: seq<ProductId>)
    requires WellFormed(m) && IsKeyOrder(ks, m)
    ensures forall i, j :: 0 <= i < j < |ks| ==> CartLines(m, ks)[i] != CartLines(m, ks)[j]
  {
  }

  /** An enumeration of the map's keys, one at a time, in an order the method chooses. */
  method KeysOf(m: CartMap) returns (ks: seq<ProductId>)
    ensures IsKeyOrder(ks, m)
  {
    ks := [];
    var rest := m.Keys;
    while rest != {}
      invariant forall id :: id in m <==> id in ks || id in rest
      invariant forall id :: id in rest ==> id !in ks
      invariant forall i, j :: 0 <= i < j < |ks| ==> ks[i] != ks[j]
      decreases rest
    {
      var id :| id in rest;
      ks := ks + [id];
      rest := rest - {id};
    }
  }

  /** Every map has an enumeration order, so the engine always has one to pick. */
  lemma {:induction false} KeyOrderExists(m: CartMap)
    ensures exists ks :: IsKeyOrder(ks, m)
    decreases |m|
  {
    if m == map[] {
      assert IsKeyOrder([], m);
    } else {
      var k :| k in m;
      var m' := m - {k};
      assert m'.Keys == m.Keys - {k};
      KeyOrderExists(m');
      var ks' :| IsKeyOrder(ks', m');
      assert IsKeyOrder(ks' + [k], m);
    }
  }

  /** The badge count `cart.length`: the number of distinct lines, whatever the order. */
  function CartCount(m: CartMap, ks: seq<ProductId>): (n: nat)
    requires IsKeyOrder(ks, m)
    ensures n == |m|
    ensures n == 0 <==> m == map[]
  {
    KeyOrderLength(ks, m);
    |CartLines(m, ks)|
  }

  /** Adding a product not yet in the cart twice gives one new line of quantity 2, not two lines. */
  lemma AddTwiceIsOneLine(m: CartMap, p: Product)
    requires p.id !in m
    ensures var r := AddToCart(AddToCart(m, p), p);
      && r.Keys == m.Keys + {p.id} && r[p.id] == Line(p, 2) && |r| == |m| + 1
      && forall id :: id in m ==> r[id] == m[id]
  {
  }

  // ---- the subtotal ------------------------------------------------------------

  /** `i.price * i.quantity`: what one line adds to the subtotal. */
  function LineTotal(l: Line): (t: int)
    ensures l.quantity == 1 ==> t == l.product.price
    ensures l.product.price >= 0 && l.quantity >= 1 ==> t >= l.product.price
  {
    l.product.price * l.quantity
  }

  /** `cart.reduce((s, i) => s + i.price * i.quantity, 0)`, folding from the left. */
  function Subtotal(cart: seq<Line>): (s: int)
    ensures cart == [] ==> s == 0
    ensures (forall i :: 0 <= i < |cart| ==> cart[i].product.price >= 0 && cart[i].quantity >= 1) ==> s >= 0
    decreases |cart|
  {
    if cart == [] then 0 else Subtotal(cart[..|cart| - 1]) + LineTotal(cart[|cart| - 1])
  }

  ghost function Pick(m: CartMap): (id: ProductId)
    requires m != map[]
    ensures id in m
  {
    var id :| id in m; id
  }

  /** The sum of price times quantity over the lines of the map, with no order involved. */
  ghost function MapSubtotal(m: CartMap): int
    decreases |m|
  {
    if m == map[] then 0
    else
      var id := Pick(m);
      assert (m - {id}).Keys == m.Keys - {id};
      LineTotal(m[id]) + MapSubtotal(m - {id})
  }

  /** Any line can be taken out of the sum first. */
  lemma {:induction false} MapSubtotalRemove(m: CartMap, id: ProductId)
    requires id in m
    ensures MapSubtotal(m) == LineTotal(m[id]) + MapSubtotal(m - {id})
    decreases |m|
  {
    var k := Pick(m);
    if k != id {
      assert (m - {k}).Keys == m.Keys - {k};
      assert (m - {id}).Keys == m.Keys - {id};
      MapSubtotalRemove(m - {k}, id);
      MapSubtotalRemove(m - {id}, k);
      assert m - {k} - {id} == m - {id} - {k};
    }
  }

  /** The last line of the listing is the last one the fold adds. */
  lemma SubtotalDropLast(m: CartMap, ks: seq<ProductId>)
    requires ks != [] && forall i :: 0 <= i < |ks| ==> ks[i] in m
    requires forall i :: 0 <= i < |ks| - 1 ==> ks[i] != ks[|ks| - 1]
    ensures Subtotal(CartLines(m, ks))
         == Subtotal(CartLines(m - {ks[|ks| - 1]}, ks[..|ks| - 1])) + LineTotal(m[ks[|ks| - 1]])
  {
    var n := |ks| - 1;
    var k := ks[n];
    var lines := CartLines(m, ks);
    var front := CartLines(m - {k}, ks[..n]);
    assert forall i :: 0 <= i < n ==> lines[..n][i] == front[i];
    assert lines[..n] == front;
  }

  /** The displayed subtotal is the same for every order the engine may list the lines in. */
  lemma {:induction false} SubtotalIgnoresOrder(m: CartMap, ks: seq<ProductId>)
    requires IsKeyOrder(ks, m)
    ensures Subtotal(CartLines(m, ks)) == MapSubtotal(m)
    decreases |ks|
  {
    KeyOrderLength(ks, m);
    if ks == [] {
      assert |m| == 0;
    } else {
      var n := |ks| - 1;
      var k := ks[n];
      KeyOrderDropLast(ks, m);
      SubtotalDropLast(m, ks);
      SubtotalIgnoresOrder(m - {k}, ks[..n]);
      MapSubtotalRemove(m, k);
    }
  }

  lemma EmptyCartSubtotal(ks: seq<ProductId>)
    requires IsKeyOrder(ks, map[])
    ensures Subtotal(CartLines(map[], ks)) == 0
  {
    KeyOrderLength(ks, map[]);
  }

  /** One more of a line costs one more of its price. */
  lemma LineTotalStep(l: Line)
    ensures LineTotal(l.(quantity := l.quantity + 1)) == LineTotal(l) + l.product.price
  {
  }

  /** Adding a product whose line (if any) holds the same product raises the subtotal by its price. */
  lemma SubtotalAfterAdd(m: CartMap, p: Product)
    requires p.id !in m || m[p.id].product == p
    ensures MapSubtotal(AddToCart(m, p)) == MapSubtotal(m) + p.price
  {
    var r := AddToCart(m, p);
    MapSubtotalRemove(r, p.id);
    assert r - {p.id} == m - {p.id};
    if p.id in m {
      MapSubtotalRemove(m, p.id);
      LineTotalStep(m[p.id]);
      assert r[p.id] == m[p.id].(quantity := m[p.id].quantity + 1);
    } else {
      assert m - {p.id} == m;
    }
  }

  /** Taking one off a line lowers the subtotal by that line's price; an absent id changes nothing. */
  lemma SubtotalAfterDec(m: CartMap, id: ProductId)
    requires WellFormed(m)
    ensures id in m ==> MapSubtotal(DecFromCart(m, id)) == MapSubtotal(m) - m[id].product.price
    ensures id !in m ==> MapSubtotal(DecFromCart(m, id)) == MapSubtotal(m)
  {
    if id in m {
      var r := DecFromCart(m, id);
      MapSubtotalRemove(m, id);
      if id in r {
        MapSubtotalRemove(r, id);
        assert r - {id} == m - {id};
        LineTotalStep(r[id]);
        assert r[id].(quantity := r[id].quantity + 1) == m[id];
      } else {
        assert r == m - {id};
      }
    }
  }

  /** Two of a 1000-cent product and one of a 500-cent product come to 2500 cents. */
  lemma ExampleSubtotal(a: Product, b: Product)
    requires a.id != b.id && a.price == 1000 && b.price == 500
    ensures MapSubtotal(map[a.id := Line(a, 2), b.id := Line(b, 1)]) == 2500
  {
    var m := map[a.id := Line(a, 2), b.id := Line(b, 1)];
    MapSubtotalRemove(m, a.id);
    assert m - {a.id} == map[b.id := Line(b, 1)];
    MapSubtotalRemove(map[b.id := Line(b, 1)], b.id);
    assert map[b.id := Line(b, 1)] - {b.id} == map[];
  }
}
