/** Properties of the order slice that relate several dispatches. */
module OrderFacts {
  import opened Common
  import opened Seqs
  import opened Orders

  /** The selection keeps every copy of each order of the user and nothing
      else. */
  lemma FetchUserOrdersCounts(s: OrderState, userId: string)
    ensures forall o ::
      multiset(FetchUserOrders(s, userId).userOrders)[o] ==
      (if o.userId == userId then multiset(s.orders)[o] else 0)
  {
    FilterCounts(s.orders, OfUser(userId));
  }

  /** Selecting the same user again gives the same state. */
  lemma FetchUserOrdersIdempotent(s: OrderState, userId: string)
    ensures FetchUserOrders(FetchUserOrders(s, userId), userId) == FetchUserOrders(s, userId)
  {
  }

  /** A placed order shows up at the end of its user's selection once the
      selection is refreshed, and in no other user's. */
  lemma AddOrderThenFetch(s: OrderState, order: Order, userId: string)
    ensures FetchUserOrders(AddOrder(s, order), userId).userOrders ==
      FetchUserOrders(s, userId).userOrders + (if order.userId == userId then [order] else [])
  {
    FilterAppend(s.orders, order, OfUser(userId));
  }

  /** Setting the same status twice is setting it once. */
  lemma UpdateOrderStatusIdempotent(s: OrderState, id: string, status: string)
    ensures UpdateOrderStatus(UpdateOrderStatus(s, id, status), id, status) == UpdateOrderStatus(s, id, status)
  {
    match FindIndex(s.orders, HasId(id))
    case None =>
      assert UpdateOrderStatus(s, id, status) == s;
    case Some(i) =>
      var orders := s.orders[i := s.orders[i].(status := status)];
      var r := s.(orders := orders);
      assert UpdateOrderStatus(s, id, status) == r;
      FindIndexAgrees(orders, HasId(id), s.orders, HasId(id));
      assert orders[i := orders[i].(status := status)] == orders;
  }

  /** The selection is a snapshot: a status update leaves it alone. Once
      the user's orders are selected again, the selection is the old one
      with the updated order's status changed in place, if the order is the
      user's, and the old one otherwise. */
  lemma StatusUpdateReachesSelectionOnRefetch(s: OrderState, id: string, status: string, userId: string, j: int)
    requires FirstWithId(s.orders, id, j)
    ensures UpdateOrderStatus(s, id, status).userOrders == s.userOrders
    ensures
      var before := FetchUserOrders(s, userId).userOrders;
      var after := FetchUserOrders(UpdateOrderStatus(s, id, status), userId).userOrders;
      var n := |Filter(s.orders[..j], OfUser(userId))|;
      if s.orders[j].userId == userId then
        && n < |before| && before[n] == s.orders[j]
        && after == before[n := s.orders[j].(status := status)]
      else
        after == before
  {
    var o := s.orders[j];
    assert FindIndex(s.orders, HasId(id)) == Some(j);
    assert UpdateOrderStatus(s, id, status).orders == s.orders[j := o.(status := status)];
    FilterUpdate(s.orders, j, o.(status := status), OfUser(userId));
  }

  /** Orders are never removed or reordered, and keep their ids and
      owners: a run only appends orders and changes statuses. */
  lemma {:induction false} RunKeepsOrders(s: OrderState, actions: seq<OrderAction>)
    ensures |Run(s, actions).orders| >= |s.orders|
    ensures forall j :: 0 <= j < |s.orders| ==>
      && Run(s, actions).orders[j].id == s.orders[j].id
      && Run(s, actions).orders[j].userId == s.orders[j].userId
      && Run(s, actions).orders[j].items == s.orders[j].items
      && Run(s, actions).orders[j].total == s.orders[j].total
    decreases |actions|
  {
    if |actions| > 0 {
      var s1 := Reduce(s, actions[0]);
      assert |s1.orders| >= |s.orders|;
      assert forall j :: 0 <= j < |s.orders| ==> s1.orders[j] == s.orders[j].(status := s1.orders[j].status);
      RunKeepsOrders(s1, actions[1..]);
    }
  }
}
