/**
 The second restaurant dashboard. It repeats the admin dashboard's lookup
 and filters, and routes every button through one `HandleUpdate` that
 forwards a status without a driver.
 */
module RestaurantDashboard {
  import opened Types
  import opened Store
  import Seqs
  import Admin = RestaurantAdminDashboard

  function MyRest(restaurants: seq<Restaurant>, me: Option<string>): (r: Option<Restaurant>)
    ensures r.None? <==> forall x :: x in restaurants ==> Some(x.ownerId) != me
    ensures r.Some? ==> exists i :: 0 <= i < |restaurants| && restaurants[i] == r.value
                                   && Some(restaurants[i].ownerId) == me
                                   && forall j :: 0 <= j < i ==> Some(restaurants[j].ownerId) != me
  {
    Seqs.Find(restaurants, (x: Restaurant) => Some(x.ownerId) == me)
  }

  function MyOrders(orders: seq<Order>, rest: Option<Restaurant>): (r: seq<Order>)
    ensures forall o :: o in r <==>
              o in orders && o.restaurantId == (if rest.Some? then Some(rest.value.id) else None)
  {
    Seqs.Filter(orders, (o: Order) => o.restaurantId == (if rest.Some? then Some(rest.value.id) else None))
  }

  function PendingOrders(mine: seq<Order>): (r: seq<Order>)
    ensures forall o :: o in r <==> o in mine && o.status == Pending
  {
    Seqs.Filter(mine, (o: Order) => o.status == Pending)
  }

  function ActiveOrders(mine: seq<Order>): (r: seq<Order>)
    ensures forall o :: o in r <==>
              o in mine && (o.status == RestaurantAccepted || o.status == Preparing
                            || o.status == ReadyForPickup)
  {
    Seqs.Filter(mine, (o: Order) => o.status in [RestaurantAccepted, Preparing, ReadyForPickup])
  }

  /** Forwards the status with no driver: only status and `updatedAt` change. */
  function HandleUpdate(s: AppState, orderId: string, status: OrderStatus, now: string): (r: AppState)
    ensures r == s.(orders := r.orders) && |r.orders| == |s.orders|
    ensures forall i :: 0 <= i < |s.orders| && s.orders[i].id != orderId ==>
              r.orders[i] == s.orders[i]
    ensures forall i :: 0 <= i < |s.orders| && s.orders[i].id == orderId ==>
              r.orders[i] == s.orders[i].(status := status, updatedAt := now)
  {
    UpdateOrderStatus(s, orderId, status, None, now)
  }

  /** Both dashboards find the same restaurant and show the same pending and
      active lists, each drawn from that restaurant's orders. */
  lemma {:induction false} DashboardsAgree(restaurants: seq<Restaurant>, orders: seq<Order>,
                                           me: Option<string>)
    ensures MyRest(restaurants, me) == Admin.MyRest(restaurants, me)
    ensures var rest := MyRest(restaurants, me);
            && MyOrders(orders, rest) == Admin.MyOrders(orders, rest)
            && PendingOrders(MyOrders(orders, rest)) == Admin.PendingOrders(Admin.MyOrders(orders, rest))
            && ActiveOrders(MyOrders(orders, rest)) == Admin.ActiveOrders(Admin.MyOrders(orders, rest))
  {
    var rest := MyRest(restaurants, me);
    FilterSameAsAdmin(orders, rest);
    FilterSameAsAdmin(MyOrders(orders, rest), rest);
    FindSameAsAdmin(restaurants, me);
  }

  lemma {:induction false} FindSameAsAdmin(restaurants: seq<Restaurant>, me: Option<string>)
    ensures MyRest(restaurants, me) == Admin.MyRest(restaurants, me)
  {
    var a := MyRest(restaurants, me);
    var b := Admin.MyRest(restaurants, me);
    if a.Some? && b.Some? {
      var i :| 0 <= i < |restaurants| && restaurants[i] == a.value
               && Some(restaurants[i].ownerId) == me
               && forall j :: 0 <= j < i ==> Some(restaurants[j].ownerId) != me;
      var k :| 0 <= k < |restaurants| && restaurants[k] == b.value
               && Some(restaurants[k].ownerId) == me
               && forall j :: 0 <= j < k ==> Some(restaurants[j].ownerId) != me;
      assert i == k;
    }
  }

  lemma {:induction false} FilterSameAsAdmin(orders: seq<Order>, rest: Option<Restaurant>)
    ensures MyOrders(orders, rest) == Admin.MyOrders(orders, rest)
    ensures PendingOrders(orders) == Admin.PendingOrders(orders)
    ensures ActiveOrders(orders) == Admin.ActiveOrders(orders)
  {
    if |orders| > 0 {
      FilterSameAsAdmin(orders[1..], rest);
    }
  }

  /** Each button of this dashboard writes what the same button of the admin
      dashboard writes. */
  lemma ButtonsAgree(s: AppState, orderId: string, b: Admin.KitchenButton, now: string)
    ensures HandleUpdate(s, orderId, Admin.ButtonStatus(b), now) == Admin.PressButton(s, orderId, b, now)
  {
  }
}
