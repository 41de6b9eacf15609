/** The order slice: every order, and a snapshot of one user's orders. */
module Orders {
  import opened Common
  import opened Seqs
  import Cart
  import Users

  /** An order. `status` is one of "pending", "processing", "shipped",
      "delivered" and "cancelled" in the declared type, but the status
      update accepts any string, so the model keeps a string. */
  datatype Order = Order(
    id: string,
    userId: string,
    items: seq<Cart.CartItem>,
    total: int,
    status: string,
    shippingAddress: Users.Address,
    paymentMethod: string,
    createdAt: string)

  datatype OrderState = OrderState(
    orders: seq<Order>,
    userOrders: seq<Order>,
    status: LoadStatus,
    error: Option<string>)

  /** The state the store starts from, given the orders it is seeded
      with: no user's orders selected yet. */
  function InitialOrders(seed: seq<Order>): OrderState
  {
    OrderState(seed, [], Idle, None)
  }

  function HasId(id: string): Order -> bool
  {
    (o: Order) => o.id == id
  }

  function OfUser(userId: string): Order -> bool
  {
    (o: Order) => o.userId == userId
  }

  /** The first order with id `id` (the one `find` returns) sits at
      position `j`. */
  predicate FirstWithId(orders: seq<Order>, id: string, j: int)
  {
    0 <= j < |orders| && orders[j].id == id && forall i :: 0 <= i < j ==> orders[i].id != id
  }

  /** Appends the order; the selected user orders are not refreshed. */
  function AddOrder(s: OrderState, order: Order): (r: OrderState)
    ensures r == s.(orders := r.orders)
    ensures |r.orders| == |s.orders| + 1
    ensures r.orders[..|s.orders|] == s.orders && r.orders[|s.orders|] == order
  {
    s.(orders := s.orders + [order])
  }

  /** Sets the status of the first order with id `id`; nothing else
      changes, and the selected user orders keep their old copies. */
  function UpdateOrderStatus(s: OrderState, id: string, status: string): (r: OrderState)
    ensures r == s.(orders := r.orders)
    ensures |r.orders| == |s.orders|
    ensures forall j :: 0 <= j < |s.orders| ==> r.orders[j] == s.orders[j].(status := r.orders[j].status)
    ensures forall j :: 0 <= j < |s.orders| ==>
      r.orders[j].status == if FirstWithId(s.orders, id, j) then status else s.orders[j].status
    ensures (forall j :: 0 <= j < |s.orders| ==> s.orders[j].id != id) ==> r == s
  {
    match FindIndex(s.orders, HasId(id))
    case Some(i) => s.(orders := s.orders[i := s.orders[i].(status := status)])
    case None => s
  }

  /** Selects the orders of `userId`, in order, from all orders. */
  function FetchUserOrders(s: OrderState, userId: string): (r: OrderState)
    ensures r == s.(userOrders := r.userOrders)
    ensures IsSubseq(r.userOrders, s.orders)
    ensures forall i :: 0 <= i < |r.userOrders| ==> r.userOrders[i].userId == userId
    ensures forall i :: 0 <= i < |s.orders| && s.orders[i].userId == userId ==> s.orders[i] in r.userOrders
  {
    s.(userOrders := Filter(s.orders, OfUser(userId)))
  }

  datatype OrderAction =
    | Place(order: Order)
    | SetStatus(id: string, status: string)
    | SelectUser(userId: string)

  function Reduce(s: OrderState, a: OrderAction): OrderState
  {
    match a
    case Place(o) => AddOrder(s, o)
    case SetStatus(id, status) => UpdateOrderStatus(s, id, status)
    case SelectUser(u) => FetchUserOrders(s, u)
  }

  function Run(s: OrderState, actions: seq<OrderAction>): OrderState
    decreases |actions|
  {
    if |actions| == 0 then s else Run(Reduce(s, actions[0]), actions[1..])
  }
}
