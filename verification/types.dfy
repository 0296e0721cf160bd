/**
 The entities of the delivery marketplace: users and their roles, the order
 lifecycle statuses, catalog records, cart lines and orders.

 Money is held in integer cents. Identifiers and ISO timestamps are strings.
 Optional fields of the source records are `Option` values.
 */
module Types {

  datatype Option<+T> = None | Some(value: T)

  datatype UserRole = Owner | RestaurantAdmin | Driver | Customer

  /** Every status an order can carry. The source attaches no transition
      table to this enumeration: any status may be written over any other. */
  datatype OrderStatus =
    | Pending
    | RestaurantAccepted
    | Preparing
    | ReadyForPickup
    | Accepted
    | PickedUp
    | InTransit
    | Delivered
    | Cancelled

  datatype PaymentMethod = Card | EftPop | Cash | Wallet

  datatype Variation = Variation(id: string, name: string, price: int)

  datatype Modifier = Modifier(id: string, name: string, price: int)

  datatype MenuItem = MenuItem(
    id: string,
    restaurantId: string,
    categoryId: string,
    name: string,
    basePrice: int,
    variations: seq<Variation>,
    modifiers: seq<Modifier>,
    isAvailable: bool)

  datatype Restaurant = Restaurant(
    id: string,
    name: string,
    address: string,
    zone: string,
    ownerId: string)

  datatype User = User(id: string, name: string, email: string, role: UserRole)

  /** A priced line of the cart; `totalPrice` is the unit price of the line. */
  datatype CartItem = CartItem(
    menuItemId: string,
    name: string,
    quantity: int,
    variation: Option<Variation>,
    modifiers: seq<Modifier>,
    totalPrice: int)

  datatype Order = Order(
    id: string,
    customerId: string,
    restaurantId: Option<string>,
    driverId: Option<string>,
    items: seq<CartItem>,
    pickupAddress: string,
    dropoffAddress: string,
    status: OrderStatus,
    paymentMethod: PaymentMethod,
    foodSubtotal: int,
    deliveryFee: int,
    serviceFee: int,
    totalFee: int,
    createdAt: string,
    updatedAt: string)

  /** JavaScript truthiness of an optional string: present and non-empty. */
  predicate Truthy(s: Option<string>) {
    s.Some? && s.value != ""
  }

  /** The order's total is the sum of its three fee components. */
  predicate FeesConsistent(o: Order) {
    o.totalFee == o.foodSubtotal + o.deliveryFee + o.serviceFee
  }
}
