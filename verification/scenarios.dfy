/**
 Worked examples over the demo catalog: the mock users, the first
 restaurant and its Full House Kota with the Double Cheese variation.
 */
module Scenarios {
  import opened Types
  import opened Store
  import CustomerApp
  import DriverApp
  import RestaurantAdminDashboard

  const Owner1: User := User("1", "Zanele Khumalo", "owner@swiftdrop.co.za", Owner)
  const KotaAdmin: User := User("2", "Kota King Admin", "kota@business.co.za", RestaurantAdmin)
  const Sipho: User := User("3", "Speedy Sipho", "sipho@driver.co.za", Driver)
  const Thabo: User := User("4", "Thabo Mokoena", "thabo@gmail.com", Customer)

  const MockUsers: seq<User> := [Owner1, KotaAdmin, Sipho, Thabo]

  const KotaKing: Restaurant :=
    Restaurant("rest-1", "The Kota King", "Vilikazi Street, Orlando West", "Soweto", "2")
  const Debonairs: Restaurant :=
    Restaurant("rest-2", "Debonairs Pizza - Jabulani", "Jabulani Mall, Soweto", "Soweto", "deb-corp")

  const Standard: Variation := Variation("v1", "Standard", 0)
  const DoubleCheese: Variation := Variation("v2", "Double Cheese", 1000)

  const FullHouseKota: MenuItem :=
    MenuItem("m1", "rest-1", "1", "The Full House Kota", 4500, [Standard, DoubleCheese], [], true)

  /** Logging in as the Kota King admin makes user "2" current; an unknown
      email leaves nobody logged in. */
  lemma LoginExample()
    ensures Login(Init([KotaKing, Debonairs], []), MockUsers, "kota@business.co.za").currentUser
            == Some(KotaAdmin)
    ensures Login(Init([KotaKing, Debonairs], []), MockUsers, "nobody@example.com").currentUser
            == None
  {
    assert MockUsers[1] == KotaAdmin;
  }

  /** Full House Kota with Double Cheese: a line of R55.00 and, after
      checkout, a PENDING order for The Kota King totalling R85.00. */
  lemma KotaCheckoutExample(now: string)
    ensures var s0 := Login(Init([KotaKing, Debonairs], [FullHouseKota]), MockUsers, "thabo@gmail.com");
            var s1 := CustomerApp.HandleAddToCart(s0, Some(FullHouseKota), Some(DoubleCheese), []);
            var s2 := CustomerApp.HandlePlaceOrder(s1, Some(KotaKing), Card, "ORD-1", now);
            && s1.cart[0].totalPrice == 5500
            && s2.orders[0].foodSubtotal == 5500
            && s2.orders[0].totalFee == 8500
            && s2.orders[0].status == Pending
            && s2.orders[0].restaurantId == Some("rest-1")
            && s2.orders[0].customerId == "4"
            && |s2.cart| == 0
  {
    var s0 := Login(Init([KotaKing, Debonairs], [FullHouseKota]), MockUsers, "thabo@gmail.com");
    assert MockUsers[3] == Thabo;
    var s1 := CustomerApp.HandleAddToCart(s0, Some(FullHouseKota), Some(DoubleCheese), []);
    assert CustomerApp.FoodSubtotal(s1.cart) == 5500;
  }

  /** The Kota King admin owns rest-1, and an order checked out there shows
      in that dashboard's pending list but not in the drivers' available list. */
  lemma KotaOrderReachesKitchen(o: Order)
    requires o.restaurantId == Some("rest-1") && o.status == Pending
    ensures RestaurantAdminDashboard.MyRest([KotaKing, Debonairs], Some("2")) == Some(KotaKing)
    ensures o in RestaurantAdminDashboard.PendingOrders(
                   RestaurantAdminDashboard.MyOrders([o], Some(KotaKing)))
    ensures o !in DriverApp.AvailableOrders([o])
  {
  }
}
