/**
 The application store: the current user, the catalog, the orders and the
 cart, and the seven reducers that update it. The store's `set` merges its
 argument shallowly into the state, so each reducer below changes exactly
 the fields it names and leaves the rest as they were.

 `UpdateOrderStatus` has no guard of any kind: it does not look at the
 order's current status or at who is asking. "now" is a parameter.
 */
module Store {
  import opened Types
  import Seqs

  datatype AppState = AppState(
    currentUser: Option<User>,
    restaurants: seq<Restaurant>,
    menuItems: seq<MenuItem>,
    orders: seq<Order>,
    cart: seq<CartItem>)

  /** The state the store starts in: nobody logged in, no orders, empty cart. */
  function Init(restaurants: seq<Restaurant>, menuItems: seq<MenuItem>): (s: AppState)
    ensures s.currentUser.None? && |s.orders| == 0 && |s.cart| == 0
    ensures s.restaurants == restaurants && s.menuItems == menuItems
  {
    AppState(None, restaurants, menuItems, [], [])
  }

  /** The id of the logged-in user, absent when nobody is (`currentUser?.id`). */
  function CurrentUserId(s: AppState): Option<string> {
    match s.currentUser
    case None => None
    case Some(u) => Some(u.id)
  }

  predicate HasEmail(email: string, u: User) {
    u.email == email
  }

  /** Looks `email` up in the user table; only a known email changes the state. */
  function Login(s: AppState, users: seq<User>, email: string): (r: AppState)
    ensures (forall u :: u in users ==> u.email != email) ==> r == s
    ensures (exists u :: u in users && u.email == email) ==>
              r == s.(currentUser := r.currentUser)
              && r.currentUser.Some?
              && exists i :: 0 <= i < |users| && users[i] == r.currentUser.value
                             && users[i].email == email
                             && forall j :: 0 <= j < i ==> users[j].email != email
  {
    match Seqs.Find(users, u => HasEmail(email, u))
    case None => s
    case Some(u) => s.(currentUser := Some(u))
  }

  function Logout(s: AppState): (r: AppState)
    ensures r.currentUser.None? && |r.cart| == 0
    ensures r.orders == s.orders
    ensures r.restaurants == s.restaurants && r.menuItems == s.menuItems
  {
    s.(currentUser := None, cart := [])
  }

  function AddToCart(s: AppState, item: CartItem): (r: AppState)
    ensures |r.cart| == |s.cart| + 1
    ensures r.cart[..|s.cart|] == s.cart && r.cart[|s.cart|] == item
    ensures r == s.(cart := r.cart)
  {
    s.(cart := s.cart + [item])
  }

  function RemoveFromCart(s: AppState, index: int): (r: AppState)
    ensures 0 <= index < |s.cart| ==>
              |r.cart| == |s.cart| - 1
              && (forall k :: 0 <= k < index ==> r.cart[k] == s.cart[k])
              && (forall k :: index <= k < |r.cart| ==> r.cart[k] == s.cart[k + 1])
    ensures !(0 <= index < |s.cart|) ==> r == s
    ensures r == s.(cart := r.cart)
  {
    s.(cart := Seqs.DropIndex(s.cart, index))
  }

  function ClearCart(s: AppState): (r: AppState)
    ensures |r.cart| == 0
    ensures r == s.(cart := r.cart)
  {
    s.(cart := [])
  }

  /** New orders go to the front of the list, and the cart is emptied in the
      same update. */
  function PlaceOrder(s: AppState, o: Order): (r: AppState)
    ensures |r.orders| == |s.orders| + 1
    ensures r.orders[0] == o && r.orders[1..] == s.orders
    ensures |r.cart| == 0
    ensures r.currentUser == s.currentUser
    ensures r.restaurants == s.restaurants && r.menuItems == s.menuItems
  {
    s.(orders := [o] + s.orders, cart := [])
  }

  /** The two orders agree on every field except status, updatedAt and driverId. */
  predicate SameOtherFields(a: Order, b: Order) {
    a == b.(status := a.status, updatedAt := a.updatedAt, driverId := a.driverId)
  }

  /** What one status update does to the order list: same length and order;
      every order carrying `id` gets the new status and timestamp, and the
      driver only when `driverId` is truthy; every other order is untouched. */
  ghost predicate StatusUpdated(before: seq<Order>, after: seq<Order>, id: string,
                                status: OrderStatus, driverId: Option<string>, now: string)
  {
    && |after| == |before|
    && (forall i :: 0 <= i < |before| && before[i].id != id ==> after[i] == before[i])
    && (forall i :: 0 <= i < |before| && before[i].id == id ==>
          && after[i].status == status
          && after[i].updatedAt == now
          && after[i].driverId == (if Truthy(driverId) then driverId else before[i].driverId)
          && SameOtherFields(after[i], before[i]))
  }

  function UpdateOne(o: Order, id: string, status: OrderStatus, driverId: Option<string>,
                     now: string): Order
  {
    if o.id == id then
      o.(status := status, updatedAt := now,
         driverId := if Truthy(driverId) then driverId else o.driverId)
    else o
  }

  function MapUpdate(orders: seq<Order>, id: string, status: OrderStatus,
                     driverId: Option<string>, now: string): (r: seq<Order>)
    ensures StatusUpdated(orders, r, id, status, driverId, now)
  {
    if |orders| == 0 then []
    else [UpdateOne(orders[0], id, status, driverId, now)]
         + MapUpdate(orders[1..], id, status, driverId, now)
  }

  /** Overwrites the status of every order carrying `id`, whatever its
      current status. */
  function UpdateOrderStatus(s: AppState, id: string, status: OrderStatus,
                             driverId: Option<string>, now: string): (r: AppState)
    ensures StatusUpdated(s.orders, r.orders, id, status, driverId, now)
    ensures r == s.(orders := r.orders)
  {
    s.(orders := MapUpdate(s.orders, id, status, driverId, now))
  }

  /** Adding a line and then removing the last index gives back the state. */
  lemma AddThenRemoveLast(s: AppState, item: CartItem)
    ensures RemoveFromCart(AddToCart(s, item), |s.cart|) == s
  {
    var r := AddToCart(s, item);
    assert r.cart[..|s.cart|] + r.cart[|s.cart| + 1..] == s.cart;
  }

  /** An id that no order carries leaves the state exactly as it was. */
  lemma UpdateUnknownIdIsNoop(s: AppState, id: string, status: OrderStatus,
                              driverId: Option<string>, now: string)
    requires forall i :: 0 <= i < |s.orders| ==> s.orders[i].id != id
    ensures UpdateOrderStatus(s, id, status, driverId, now) == s
  {
    var r := UpdateOrderStatus(s, id, status, driverId, now);
    assert r.orders == s.orders;
  }

  /** Repeating the same update (same "now") changes nothing further. */
  lemma UpdateIdempotent(s: AppState, id: string, status: OrderStatus,
                         driverId: Option<string>, now: string)
    ensures var once := UpdateOrderStatus(s, id, status, driverId, now);
            UpdateOrderStatus(once, id, status, driverId, now) == once
  {
    var once := UpdateOrderStatus(s, id, status, driverId, now);
    var twice := UpdateOrderStatus(once, id, status, driverId, now);
    forall i | 0 <= i < |s.orders|
      ensures twice.orders[i] == once.orders[i]
    {
      if s.orders[i].id == id {
        assert once.orders[i].id == id;
      }
    }
  }

  /** The update does not look at the current status: two order lists that
      differ only in the statuses of the targeted orders end up identical. */
  lemma UpdateIgnoresCurrentStatus(a: seq<Order>, b: seq<Order>, id: string,
                                   status: OrderStatus, driverId: Option<string>, now: string)
    requires |a| == |b|
    requires forall i :: 0 <= i < |a| ==> a[i] == b[i].(status := a[i].status)
    requires forall i :: 0 <= i < |a| && a[i].status != b[i].status ==> a[i].id == id
    ensures MapUpdate(a, id, status, driverId, now) == MapUpdate(b, id, status, driverId, now)
  {
    var ra := MapUpdate(a, id, status, driverId, now);
    var rb := MapUpdate(b, id, status, driverId, now);
    forall i | 0 <= i < |a|
      ensures ra[i] == rb[i]
    {
      assert a[i].id == b[i].id;
    }
  }

  /** Status updates never break the fee invariant of any order. */
  lemma UpdateKeepsFeesConsistent(s: AppState, id: string, status: OrderStatus,
                                  driverId: Option<string>, now: string)
    requires forall o :: o in s.orders ==> FeesConsistent(o)
    ensures forall o :: o in UpdateOrderStatus(s, id, status, driverId, now).orders ==>
              FeesConsistent(o)
  {
    var r := UpdateOrderStatus(s, id, status, driverId, now);
    forall o | o in r.orders
      ensures FeesConsistent(o)
    {
      var i :| 0 <= i < |r.orders| && r.orders[i] == o;
      assert s.orders[i] in s.orders;
    }
  }
}
