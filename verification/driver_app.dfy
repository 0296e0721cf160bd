/**
 The driver view: which orders are offered to drivers, which belong to the
 logged-in driver, accepting an order, and advancing it along
 ACCEPTED -> PICKED_UP -> IN_TRANSIT -> DELIVERED.
 */
module DriverApp {
  import opened Types
  import opened Store
  import Seqs

  /** `!o.restaurantId`: the id is absent or the empty string. */
  predicate NoRestaurant(o: Order) {
    o.restaurantId.None? || o.restaurantId.value == ""
  }

  predicate IsAvailable(o: Order) {
    o.status == ReadyForPickup || (o.status == Pending && NoRestaurant(o))
  }

  /** Orders offered to every driver: ready at a restaurant, or a parcel order
      (no restaurant) still pending. */
  function AvailableOrders(orders: seq<Order>): (r: seq<Order>)
    ensures forall o :: o in r <==>
              o in orders
              && (o.status == ReadyForPickup
                  || (o.status == Pending && (o.restaurantId.None? || o.restaurantId.value == "")))
  {
    Seqs.Filter(orders, IsAvailable)
  }

  predicate IsMyActive(me: Option<string>, o: Order) {
    o.driverId == me && o.status != Delivered
  }

  /** Orders whose driver is `me` (the Option equality of `===` on
      `currentUser?.id`) and that are not yet delivered. */
  function MyActiveOrders(orders: seq<Order>, me: Option<string>): (r: seq<Order>)
    ensures forall o :: o in r <==> o in orders && o.driverId == me && o.status != Delivered
  {
    Seqs.Filter(orders, o => IsMyActive(me, o))
  }

  /** Accept: the order becomes ACCEPTED and, when the current user has a
      non-empty id, that id becomes its driver. */
  function HandleAccept(s: AppState, orderId: string, now: string): (r: AppState)
    ensures r == s.(orders := r.orders) && |r.orders| == |s.orders|
    ensures forall i :: 0 <= i < |s.orders| && s.orders[i].id != orderId ==>
              r.orders[i] == s.orders[i]
    ensures forall i :: 0 <= i < |s.orders| && s.orders[i].id == orderId ==>
              && r.orders[i].status == Accepted
              && r.orders[i].updatedAt == now
              && SameOtherFields(r.orders[i], s.orders[i])
              && (s.currentUser.Some? && s.currentUser.value.id != "" ==>
                    r.orders[i].driverId == Some(s.currentUser.value.id))
              && (s.currentUser.None? || s.currentUser.value.id == "" ==>
                    r.orders[i].driverId == s.orders[i].driverId)
  {
    UpdateOrderStatus(s, orderId, Accepted, CurrentUserId(s), now)
  }

  /** The status the driver's action button issues for an order currently in
      `st`. Statuses outside the three delivery stages are left as they are. */
  function NextStatus(st: OrderStatus): (n: OrderStatus)
    ensures n != st <==> st in {Accepted, PickedUp, InTransit}
    ensures n != st ==> DeliveryStage(n) == DeliveryStage(st) + 1
  {
    match st
    case Accepted => PickedUp
    case PickedUp => InTransit
    case InTransit => Delivered
    case _ => st
  }

  /** Position along the driver's leg of the lifecycle; 0 outside it. */
  function DeliveryStage(st: OrderStatus): nat {
    match st
    case Accepted => 1
    case PickedUp => 2
    case InTransit => 3
    case Delivered => 4
    case _ => 0
  }

  /** `NextStatus` applied `k` times. */
  function Advance(st: OrderStatus, k: nat): OrderStatus
    decreases k
  {
    if k == 0 then st else Advance(NextStatus(st), k - 1)
  }

  /** Once delivered, an order stays delivered however often the button fires. */
  lemma {:induction false} DeliveredIsFixedPoint(k: nat)
    ensures Advance(Delivered, k) == Delivered
  {
    if k > 0 {
      DeliveredIsFixedPoint(k - 1);
    }
  }

  /** From ACCEPTED, exactly three presses reach DELIVERED, and fewer do not. */
  lemma AcceptedDeliveredInThree(k: nat)
    ensures Advance(Accepted, k) == Delivered <==> k >= 3
  {
    if k >= 3 {
      assert Advance(Accepted, 3) == Delivered;
      DeliveredIsFixedPoint(k - 3);
      AdvanceSplit(Accepted, 3, k - 3);
    } else {
      assert Advance(Accepted, k) != Delivered;
    }
  }

  lemma {:induction false} AdvanceSplit(st: OrderStatus, j: nat, k: nat)
    ensures Advance(st, j + k) == Advance(Advance(st, j), k)
    decreases j
  {
    if j > 0 {
      AdvanceSplit(NextStatus(st), j - 1, k);
    }
  }

  /** The status button: the new status is `NextStatus` of the status the view
      showed, and no driver argument is passed, so no order's driver changes. */
  function HandleStatusUpdate(s: AppState, orderId: string, currentStatus: OrderStatus,
                              now: string): (r: AppState)
    ensures r == s.(orders := r.orders) && |r.orders| == |s.orders|
    ensures forall i :: 0 <= i < |s.orders| ==> r.orders[i].driverId == s.orders[i].driverId
    ensures forall i :: 0 <= i < |s.orders| && s.orders[i].id == orderId ==>
              && r.orders[i].status == NextStatus(currentStatus)
              && r.orders[i].updatedAt == now
              && SameOtherFields(r.orders[i], s.orders[i])
    ensures forall i :: 0 <= i < |s.orders| && s.orders[i].id != orderId ==>
              r.orders[i] == s.orders[i]
  {
    UpdateOrderStatus(s, orderId, NextStatus(currentStatus), None, now)
  }

  /** After a logged-in driver (non-empty id) accepts an order, that order is
      no longer offered to drivers and shows in the driver's own list. */
  lemma AcceptMovesToMyActive(s: AppState, i: nat, now: string)
    requires i < |s.orders|
    requires s.currentUser.Some? && s.currentUser.value.id != ""
    ensures var r := HandleAccept(s, s.orders[i].id, now);
            && r.orders[i] in MyActiveOrders(r.orders, CurrentUserId(s))
            && r.orders[i] !in AvailableOrders(r.orders)
  {
    var r := HandleAccept(s, s.orders[i].id, now);
    assert r.orders[i] in r.orders;
  }

  /** A cancelled order assigned to the driver still counts as active. */
  lemma CancelledStaysActive(orders: seq<Order>, me: Option<string>, i: nat)
    requires i < |orders| && orders[i].driverId == me && orders[i].status == Cancelled
    ensures orders[i] in MyActiveOrders(orders, me)
  {
    assert orders[i] in orders;
  }
}
