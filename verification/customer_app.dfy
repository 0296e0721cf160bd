/**
 The customer view's pricing and checkout: the price of a cart line, the
 cart subtotal and fixed fees, adding the selected menu item to the cart,
 and turning the cart into a PENDING order.

 Prices are integer cents. The order id and "now" are parameters, since the
 source draws the id from a random number and the time from the clock.
 */
module CustomerApp {
  import opened Types
  import opened Store

  /** Flat delivery fee, R25.00. */
  const DeliveryFee: int := 2500
  /** Flat service fee, R5.00. */
  const ServiceFee: int := 500
  /** The drop-off address every order is sent to. */
  const DropoffAddress: string := "House 4242, Orlando West, Soweto"

  function ModifierTotal(mods: seq<Modifier>): int {
    if |mods| == 0 then 0 else mods[0].price + ModifierTotal(mods[1..])
  }

  function VariationPrice(v: Option<Variation>): int {
    match v
    case None => 0
    case Some(x) => x.price
  }

  /** Unit price of a selection: base price, plus the variation's price (none
      counts as 0), plus every chosen modifier's price. */
  function LinePrice(item: MenuItem, v: Option<Variation>, mods: seq<Modifier>): int {
    item.basePrice + VariationPrice(v) + ModifierTotal(mods)
  }

  /** Sum of the lines' `totalPrice`; quantity plays no part in it. */
  function FoodSubtotal(cart: seq<CartItem>): int {
    if |cart| == 0 then 0 else cart[0].totalPrice + FoodSubtotal(cart[1..])
  }

  /** The total the cart tray shows: subtotal plus both fees. */
  function TotalOrderAmount(cart: seq<CartItem>): int {
    FoodSubtotal(cart) + DeliveryFee + ServiceFee
  }

  lemma {:induction false} ModifierTotalAppend(a: seq<Modifier>, b: seq<Modifier>)
    ensures ModifierTotal(a + b) == ModifierTotal(a) + ModifierTotal(b)
  {
    if |a| == 0 {
      assert a + b == b;
    } else {
      assert (a + b)[1..] == a[1..] + b;
      ModifierTotalAppend(a[1..], b);
    }
  }

  /** Choosing one more modifier raises the line price by exactly its price. */
  lemma AddModifierRaisesLinePrice(item: MenuItem, v: Option<Variation>,
                                   mods: seq<Modifier>, m: Modifier)
    ensures LinePrice(item, v, mods + [m]) == LinePrice(item, v, mods) + m.price
  {
    ModifierTotalAppend(mods, [m]);
  }

  /** With no negative variation or modifier price, the line never costs less
      than the item's base price. */
  lemma {:induction false} LinePriceAtLeastBase(item: MenuItem, v: Option<Variation>,
                                                mods: seq<Modifier>)
    requires v.Some? ==> v.value.price >= 0
    requires forall k :: 0 <= k < |mods| ==> mods[k].price >= 0
    ensures LinePrice(item, v, mods) >= item.basePrice
  {
    ModifierTotalNonNegative(mods);
  }

  lemma {:induction false} ModifierTotalNonNegative(mods: seq<Modifier>)
    requires forall k :: 0 <= k < |mods| ==> mods[k].price >= 0
    ensures ModifierTotal(mods) >= 0
  {
    if |mods| > 0 {
      ModifierTotalNonNegative(mods[1..]);
    }
  }

  lemma {:induction false} SubtotalAppend(a: seq<CartItem>, b: seq<CartItem>)
    ensures FoodSubtotal(a + b) == FoodSubtotal(a) + FoodSubtotal(b)
  {
    if |a| == 0 {
      assert a + b == b;
    } else {
      assert (a + b)[1..] == a[1..] + b;
      SubtotalAppend(a[1..], b);
    }
  }

  /** Taking line `j` out of a cart lowers the subtotal by that line's price. */
  lemma {:induction false} SubtotalDropAt(c: seq<CartItem>, j: nat)
    requires j < |c|
    ensures FoodSubtotal(c) == c[j].totalPrice + FoodSubtotal(c[..j] + c[j + 1..])
  {
    var d := c[..j] + c[j + 1..];
    if j == 0 {
      assert d == c[1..];
    } else {
      assert d[0] == c[0];
      assert d[1..] == c[1..][..j - 1] + c[1..][j..];
      SubtotalDropAt(c[1..], j - 1);
    }
  }

  /** Removing the line at `j` from both sides of a multiset equality keeps it. */
  lemma MultisetDropAt(a: seq<CartItem>, b: seq<CartItem>, j: nat)
    requires |a| > 0 && j < |b| && b[j] == a[0]
    requires multiset(a) == multiset(b)
    ensures multiset(a[1..]) == multiset(b[..j] + b[j + 1..])
  {
    assert a == [a[0]] + a[1..];
    assert b == b[..j] + [b[j]] + b[j + 1..];
    assert multiset(a[1..]) == multiset(a) - multiset{a[0]};
    assert multiset(b[..j] + b[j + 1..]) == multiset(b) - multiset{b[j]};
  }

  /** The subtotal does not depend on the order of the cart's lines. */
  lemma {:induction false} SubtotalOrderIndependent(a: seq<CartItem>, b: seq<CartItem>)
    requires multiset(a) == multiset(b)
    ensures FoodSubtotal(a) == FoodSubtotal(b)
    decreases |a|
  {
    if |a| > 0 {
      assert a[0] in multiset(b);
      var j :| 0 <= j < |b| && b[j] == a[0];
      MultisetDropAt(a, b, j);
      SubtotalOrderIndependent(a[1..], b[..j] + b[j + 1..]);
      SubtotalDropAt(b, j);
    } else {
      assert |b| == |multiset(b)|;
    }
  }

  /** Removing line `index` lowers the subtotal by that line's price. */
  lemma RemoveLowersSubtotal(s: AppState, index: int)
    requires 0 <= index < |s.cart|
    ensures FoodSubtotal(RemoveFromCart(s, index).cart)
            == FoodSubtotal(s.cart) - s.cart[index].totalPrice
  {
    SubtotalDropAt(s.cart, index);
  }

  /** The cart line for the selected item: quantity 1, unit price as above. */
  function NewLine(item: MenuItem, v: Option<Variation>, mods: seq<Modifier>): CartItem {
    CartItem(item.id, item.name, 1, v, mods, LinePrice(item, v, mods))
  }

  /** "Add to cart": nothing happens without a selected item; otherwise one
      line is appended and the subtotal grows by the line's price. */
  function HandleAddToCart(s: AppState, selected: Option<MenuItem>, v: Option<Variation>,
                           mods: seq<Modifier>): (r: AppState)
    ensures selected.None? ==> r == s
    ensures selected.Some? ==>
              && r == s.(cart := r.cart)
              && |r.cart| == |s.cart| + 1
              && r.cart[..|s.cart|] == s.cart
              && r.cart[|s.cart|].quantity == 1
              && r.cart[|s.cart|].menuItemId == selected.value.id
              && r.cart[|s.cart|].name == selected.value.name
              && r.cart[|s.cart|].variation == v
              && r.cart[|s.cart|].modifiers == mods
              && FoodSubtotal(r.cart)
                 == FoodSubtotal(s.cart) + selected.value.basePrice + VariationPrice(v)
                    + ModifierTotal(mods)
  {
    match selected
    case None => s
    case Some(item) =>
      var line := NewLine(item, v, mods);
      SubtotalAppend(s.cart, [line]);
      AddToCart(s, line)
  }

  function CustomerId(s: AppState): string {
    match s.currentUser
    case None => ""
    case Some(u) => u.id
  }

  function NewOrder(s: AppState, rest: Option<Restaurant>, pm: PaymentMethod,
                    id: string, now: string): Order
  {
    Order(
      id := id,
      customerId := CustomerId(s),
      restaurantId := if rest.Some? then Some(rest.value.id) else None,
      driverId := None,
      items := s.cart,
      pickupAddress := if rest.Some? then rest.value.address else "",
      dropoffAddress := DropoffAddress,
      status := Pending,
      paymentMethod := pm,
      foodSubtotal := FoodSubtotal(s.cart),
      deliveryFee := DeliveryFee,
      serviceFee := ServiceFee,
      totalFee := TotalOrderAmount(s.cart),
      createdAt := now,
      updatedAt := now)
  }

  /** Checkout: an empty cart places nothing; otherwise a PENDING order built
      from the whole cart becomes the head of the order list and the cart is
      emptied in the same update. */
  function HandlePlaceOrder(s: AppState, rest: Option<Restaurant>, pm: PaymentMethod,
                            id: string, now: string): (r: AppState)
    ensures |s.cart| == 0 ==> r == s
    ensures |s.cart| > 0 ==>
              && |r.orders| == |s.orders| + 1
              && r.orders[1..] == s.orders
              && |r.cart| == 0
              && r.currentUser == s.currentUser
              && r.restaurants == s.restaurants && r.menuItems == s.menuItems
              && r.orders[0].id == id
              && r.orders[0].status == Pending
              && r.orders[0].items == s.cart
              && r.orders[0].driverId.None?
              && (rest.Some? ==> r.orders[0].restaurantId == Some(rest.value.id))
              && (rest.None? ==> r.orders[0].restaurantId.None?)
              && (s.currentUser.Some? ==> r.orders[0].customerId == s.currentUser.value.id)
              && (s.currentUser.None? ==> r.orders[0].customerId == "")
              && r.orders[0].paymentMethod == pm
              && r.orders[0].pickupAddress == (if rest.Some? then rest.value.address else "")
              && r.orders[0].dropoffAddress == DropoffAddress
              && r.orders[0].foodSubtotal == FoodSubtotal(s.cart)
              && r.orders[0].deliveryFee == DeliveryFee
              && r.orders[0].serviceFee == ServiceFee
              && FeesConsistent(r.orders[0])
              && r.orders[0].createdAt == now && r.orders[0].updatedAt == now
  {
    if |s.cart| == 0 then s
    else PlaceOrder(s, NewOrder(s, rest, pm, id, now))
  }

  /** Checkout keeps every order's total equal to the sum of its fees. */
  lemma CheckoutKeepsFeesConsistent(s: AppState, rest: Option<Restaurant>, pm: PaymentMethod,
                                    id: string, now: string)
    requires forall o :: o in s.orders ==> FeesConsistent(o)
    ensures forall o :: o in HandlePlaceOrder(s, rest, pm, id, now).orders ==> FeesConsistent(o)
  {
    var r := HandlePlaceOrder(s, rest, pm, id, now);
    if |s.cart| > 0 {
      assert r.orders == [r.orders[0]] + s.orders;
    }
  }

  /** The placed order charges exactly the total the cart tray shows. */
  lemma CheckoutChargesTrayTotal(s: AppState, rest: Option<Restaurant>, pm: PaymentMethod,
                                 id: string, now: string)
    requires |s.cart| > 0
    ensures HandlePlaceOrder(s, rest, pm, id, now).orders[0].totalFee == TotalOrderAmount(s.cart)
  {
  }

  /** After logout the cart is empty, so checkout places nothing. */
  lemma CheckoutAfterLogoutPlacesNothing(s: AppState, rest: Option<Restaurant>, pm: PaymentMethod,
                                         id: string, now: string)
    ensures HandlePlaceOrder(Logout(s), rest, pm, id, now) == Logout(s)
  {
  }

  /** After clearing the cart, checkout places nothing. */
  lemma CheckoutAfterClearCartPlacesNothing(s: AppState, rest: Option<Restaurant>, pm: PaymentMethod,
                                            id: string, now: string)
    ensures HandlePlaceOrder(ClearCart(s), rest, pm, id, now) == ClearCart(s)
  {
  }

  /** A cleared cart shows a zero subtotal and a total of just the two fees. */
  lemma ClearCartZeroesSubtotal(s: AppState)
    ensures FoodSubtotal(ClearCart(s).cart) == 0
    ensures TotalOrderAmount(ClearCart(s).cart) == DeliveryFee + ServiceFee
  {
  }
}
