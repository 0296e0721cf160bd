/**
 The restaurant operator's dashboard (the routed one): finding the user's
 restaurant, the restaurant's pending and active orders, and the status
 each of the four kitchen buttons writes.
 */
module RestaurantAdminDashboard {
  import opened Types
  import opened Store
  import Seqs

  predicate OwnedBy(me: Option<string>, r: Restaurant) {
    Some(r.ownerId) == me
  }

  /** The first restaurant whose owner is the current user. With nobody
      logged in no restaurant matches, since `ownerId` is always a string. */
  function MyRest(restaurants: seq<Restaurant>, me: Option<string>): (r: Option<Restaurant>)
    ensures r.None? <==> forall x :: x in restaurants ==> Some(x.ownerId) != me
    ensures r.Some? ==> exists i :: 0 <= i < |restaurants| && restaurants[i] == r.value
                                   && Some(restaurants[i].ownerId) == me
                                   && forall j :: 0 <= j < i ==> Some(restaurants[j].ownerId) != me
    ensures me.None? ==> r.None?
  {
    Seqs.Find(restaurants, x => OwnedBy(me, x))
  }

  /** `myRest?.id`: the restaurant's id, absent when there is no restaurant. */
  function RestId(rest: Option<Restaurant>): Option<string> {
    match rest
    case None => None
    case Some(x) => Some(x.id)
  }

  predicate BelongsTo(rest: Option<Restaurant>, o: Order) {
    o.restaurantId == RestId(rest)
  }

  /** Orders whose `restaurantId` is the restaurant's id. With no restaurant,
      those are exactly the orders that have no `restaurantId`. */
  function MyOrders(orders: seq<Order>, rest: Option<Restaurant>): (r: seq<Order>)
    ensures rest.Some? ==> forall o :: o in r <==> o in orders && o.restaurantId == Some(rest.value.id)
    ensures rest.None? ==> forall o :: o in r <==> o in orders && o.restaurantId.None?
  {
    Seqs.Filter(orders, o => BelongsTo(rest, o))
  }

  predicate IsPending(o: Order) {
    o.status == Pending
  }

  predicate IsActive(o: Order) {
    o.status in [RestaurantAccepted, Preparing, ReadyForPickup]
  }

  function PendingOrders(mine: seq<Order>): (r: seq<Order>)
    ensures forall o :: o in r <==> o in mine && o.status == Pending
  {
    Seqs.Filter(mine, IsPending)
  }

  /** The kitchen queue: accepted, preparing or ready; never a pending order. */
  function ActiveOrders(mine: seq<Order>): (r: seq<Order>)
    ensures forall o :: o in r <==>
              o in mine && (o.status == RestaurantAccepted || o.status == Preparing
                            || o.status == ReadyForPickup)
    ensures forall o :: o in r ==> o !in PendingOrders(mine)
  {
    Seqs.Filter(mine, IsActive)
  }

  /** Decline and Accept are shown on pending orders, Prep and Ready on active ones. */
  datatype KitchenButton = Decline | Accept | Prep | Ready

  function ButtonStatus(b: KitchenButton): (st: OrderStatus)
    ensures b.Decline? <==> st == Cancelled
    ensures b.Accept? <==> st == RestaurantAccepted
    ensures b.Prep? <==> st == Preparing
    ensures b.Ready? <==> st == ReadyForPickup
  {
    match b
    case Decline => Cancelled
    case Accept => RestaurantAccepted
    case Prep => Preparing
    case Ready => ReadyForPickup
  }

  /** A button press writes the button's status to the order without any
      driver argument: only status and `updatedAt` change. */
  function PressButton(s: AppState, orderId: string, b: KitchenButton, now: string): (r: AppState)
    ensures r == s.(orders := r.orders) && |r.orders| == |s.orders|
    ensures forall i :: 0 <= i < |s.orders| && s.orders[i].id != orderId ==>
              r.orders[i] == s.orders[i]
    ensures forall i :: 0 <= i < |s.orders| && s.orders[i].id == orderId ==>
              && r.orders[i].status == ButtonStatus(b)
              && r.orders[i].updatedAt == now
              && r.orders[i] == s.orders[i].(status := r.orders[i].status, updatedAt := now)
  {
    UpdateOrderStatus(s, orderId, ButtonStatus(b), None, now)
  }

  /** Prep on an order of the restaurant that is already ready for pickup
      (so listed in the active queue) moves it back to preparing: the buttons
      do not check the order's current status. */
  lemma ReadyCanGoBackToPreparing(s: AppState, rest: Option<Restaurant>, i: nat, now: string)
    requires i < |s.orders| && s.orders[i].status == ReadyForPickup
    requires s.orders[i].restaurantId == RestId(rest)
    ensures s.orders[i] in ActiveOrders(MyOrders(s.orders, rest))
    ensures PressButton(s, s.orders[i].id, Prep, now).orders[i].status == Preparing
  {
    assert s.orders[i] in s.orders;
  }
}
