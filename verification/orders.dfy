/** The order history (src/services/order-service.ts): the orders kept under the AsyncStorage
    key 'order_history', newest first and at most 50. */
module Orders {
  import opened Common
  import opened Types
  import opened Storage
  import opened Cart

  const OrderHistoryKey := "order_history"
  /** Only the 50 most recent orders are kept. */
  const MaxOrders: nat := 50

  datatype OrderStatus = Completed | Pending | Declined

  datatype Order = Order(
    id: string,
    items: seq<CartItem>,
    total: real,
    timestamp: string,
    status: OrderStatus,
    riskScore: int,
    mfaUsed: bool,
    manifest: Manifest,
    shippingAddress: Option<string>)

  /** The order has that id. */
  function HasId(id: string): Order -> bool
  {
    (o: Order) => o.id == id
  }

  class OrderService {
    /** The 'order_history' entry of AsyncStorage. */
    const store: StoredValue<seq<Order>>

    constructor (store: StoredValue<seq<Order>>)
      ensures this.store == store
    {
      this.store := store;
    }

    /** `getOrders`: the stored list; nothing stored or unreadable text reads as no orders. */
    function GetOrders(): (r: seq<Order>)
      reads this, store
      ensures !store.content.Saved? ==> r == []
      ensures store.content.Saved? ==> r == store.content.value
    {
      match ParseOrNull(store.content)
      case None => []
      case Some(orders) => orders
    }

    /** `addOrder`: the new order goes first, the previous ones follow in their order, and
        only the first 50 are stored, so the oldest are dropped. */
    method AddOrder(order: Order)
      modifies store
      ensures |GetOrders()| == Min(|old(GetOrders())| + 1, MaxOrders)
      ensures GetOrders()[0] == order
      ensures forall i :: 1 <= i < |GetOrders()| ==> GetOrders()[i] == old(GetOrders())[i - 1]
      ensures GetOrderById(order.id) == Some(order)
    {
      var orders := GetOrders();
      orders := [order] + orders;
      var kept := if |orders| <= MaxOrders then orders else orders[..MaxOrders];
      store.SetItem(kept);
      assert HasId(order.id)(kept[0]);
    }

    /** `getOrderById`: the first, so most recent, order with that id, if any. */
    function GetOrderById(id: string): (r: Option<Order>)
      reads this, store
      ensures r.Some? ==> r.value.id == id && r.value in GetOrders()
      ensures r.None? <==> forall i :: 0 <= i < |GetOrders()| ==> GetOrders()[i].id != id
      ensures r.Some? ==>
        exists k :: 0 <= k < |GetOrders()| && GetOrders()[k] == r.value && (forall j :: 0 <= j < k ==> GetOrders()[j].id != id)
    {
      var orders := GetOrders();
      match FirstMatch(orders, HasId(id))
      case None => None
      case Some(k) => Some(orders[k])
    }
  }
}
