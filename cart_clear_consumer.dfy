/** The order-created consumer: once an order is placed, the ordered
    products leave the buyer's cart. */
module CartClearConsumer {
  import opened Model
  import opened CartItemDao
  import opened CartService

  datatype OrderItem = OrderItem(productId: int)

  datatype OrderCreatedMessage = OrderCreatedMessage(userId: int, orderItemList: seq<OrderItem>)

  /** The product ids of an order, in list order, repeats kept. */
  function OrderProductIds(items: seq<OrderItem>): (ids: seq<int>)
    ensures |ids| == |items|
    ensures forall i :: 0 <= i < |items| ==> ids[i] == items[i].productId
  {
    seq(|items|, i requires 0 <= i < |items| => items[i].productId)
  }

  /** The id-collecting loop of the consumer. */
  method CollectProductIds(items: seq<OrderItem>) returns (ids: seq<int>)
    ensures ids == OrderProductIds(items)
  {
    ids := [];
    for k := 0 to |items|
      invariant |ids| == k
      invariant forall i :: 0 <= i < k ==> ids[i] == items[i].productId
    {
      ids := ids + [items[k].productId];
    }
  }

  /** A message the consumer acts on: it decoded, names a user and lists at
      least one item. */
  predicate Actionable(msg: Option<OrderCreatedMessage>)
  {
    msg.Some? && msg.value.userId != 0 && msg.value.orderItemList != []
  }

  /** Handles one message (`None` stands for a payload that did not decode).
      A message that is not actionable is acknowledged and changes nothing;
      otherwise the buyer's lines for the ordered products are deleted and a
      deletion failure is handed back. */
  method ClearCartProcess(carts: CartItemTable, msg: Option<OrderCreatedMessage>) returns (err: Option<DbError>)
    requires carts.Valid()
    modifies carts
    ensures carts.Valid() && carts.failing == old(carts.failing)
    ensures !Actionable(msg) ==> err == None && carts.rows == old(carts.rows)
    ensures Actionable(msg) && DeleteByProductIdsCall in carts.failing ==>
              err == Some(Unavailable) && carts.rows == old(carts.rows)
    ensures Actionable(msg) && DeleteByProductIdsCall !in carts.failing ==>
              && err == None
              && carts.rows == WithoutProducts(old(carts.rows), msg.value.userId, OrderProductIds(msg.value.orderItemList))
  {
    if msg.None? {
      return None;
    }
    var m := msg.value;
    if m.userId == 0 || |m.orderItemList| == 0 {
      return None;
    }
    var productIds := CollectProductIds(m.orderItemList);
    err := DeleteItemByProductIds(carts, m.userId, productIds);
  }

  /** After an actionable message is handled without error, the buyer has no
      line left for any ordered product, and every other line is still there. */
  lemma ClearedCart(rows: seq<CartItem>, msg: OrderCreatedMessage, x: CartItem)
    ensures var after := WithoutProducts(rows, msg.userId, OrderProductIds(msg.orderItemList));
            && (x in after <==> x in rows && !(x.userId == msg.userId &&
                                              exists i :: 0 <= i < |msg.orderItemList| && msg.orderItemList[i].productId == x.productId))
  {
    var ids := OrderProductIds(msg.orderItemList);
    if x.productId in ids {
      var i :| 0 <= i < |ids| && ids[i] == x.productId;
      assert msg.orderItemList[i].productId == x.productId;
    }
  }

  /** Redelivering a handled message deletes nothing more. */
  lemma RedeliveryIsHarmless(rows: seq<CartItem>, msg: OrderCreatedMessage)
    ensures var ids := OrderProductIds(msg.orderItemList);
            WithoutProducts(WithoutProducts(rows, msg.userId, ids), msg.userId, ids) == WithoutProducts(rows, msg.userId, ids)
  {
    WithoutProductsIdempotent(rows, msg.userId, OrderProductIds(msg.orderItemList));
  }
}
