/** The order routes: placing an order and the cancellation guard. */
module Orders {
  import opened Documents
  import opened Collections

  /** The JSON body of `POST /order`; the store assigns the `_id`. */
  datatype OrderBody = OrderBody(
    plantId: string,
    quantity: int,
    price: real,
    customer: CustomerInfo,
    status: string)

  function OrderWithId(body: OrderBody, id: ObjectId): Order {
    Order(id, body.plantId, body.quantity, body.price, body.customer, body.status)
  }

  /** `POST /order`: any authenticated caller inserts the body as it is; the
      plant's quantity is not touched here. */
  function PlaceOrder(orders: seq<Order>, body: OrderBody, newId: ObjectId): (r: seq<Order>)
    ensures |r| == |orders| + 1 && r[..|orders|] == orders
    ensures r[|orders|] == OrderWithId(body, newId)
  {
    orders + [OrderWithId(body, newId)]
  }

  /** `DELETE /orders/:id`: a malformed id throws; a missing order makes the
      handler read `status` of null and throw; an order whose status is
      exactly "delivered" gets 409; any other order is deleted. */
  function CancelOrder(orders: seq<Order>, idText: string): (r: (Result<DeleteResult>, seq<Order>))
    ensures r.0.Err? <==> r.1 == orders
    ensures r.0.Err? ==> r.0.failure in {MalformedId, OrderMissing, Conflict}
    ensures r.0.Ok? ==> r.0.value == DeleteResult(1) && |r.1| == |orders| - 1
    ensures r.0.Ok? ==>
              IsObjectIdText(idText) && OrderIndex(orders, ParseObjectId(idText).value).Some? &&
              r.1 == RemoveAt(orders, OrderIndex(orders, ParseObjectId(idText).value).value)
    ensures r.0 == Err(MalformedId) <==> !IsObjectIdText(idText)
    ensures IsObjectIdText(idText) ==>
              var id := ParseObjectId(idText).value;
              (r.0 == Err(OrderMissing) <==> forall o :: o in orders ==> o.id != id) &&
              (r.0 == Err(Conflict) <==>
                 exists k :: 0 <= k < |orders| && orders[k].id == id &&
                   orders[k].status == "delivered" && OrderIndex(orders, id) == Some(k))
  {
    match ParseObjectId(idText)
    case None => (Err(MalformedId), orders)
    case Some(id) =>
      match OrderIndex(orders, id)
      case None => (Err(OrderMissing), orders)
      case Some(k) =>
        if orders[k].status == "delivered" then (Err(Conflict), orders)
        else
          assert RemoveAt(orders, k) != orders by { assert |RemoveAt(orders, k)| != |orders|; }
          (Ok(DeleteResult(1)), RemoveAt(orders, k))
  }

  /** Cancelling a delivered order is refused with 409 and leaves the
      orders exactly as they were. */
  lemma CancelDeliveredIsConflict(orders: seq<Order>, i: nat)
    requires UniqueOrderIds(orders) && i < |orders| && Canonical(orders[i].id)
    requires orders[i].status == "delivered"
    ensures CancelOrder(orders, orders[i].id.hex) == (Err(Conflict), orders)
  {
    ParseCanonical(orders[i].id);
    OrderIndexOfUnique(orders, i);
  }

  /** Cancelling an order in any other status deletes it and only it: the
      others stay in the same order and ids stay unique. */
  lemma CancelRemovesExactlyThatOrder(orders: seq<Order>, i: nat)
    requires UniqueOrderIds(orders) && i < |orders| && Canonical(orders[i].id)
    requires orders[i].status != "delivered"
    ensures var r := CancelOrder(orders, orders[i].id.hex);
            r.0 == Ok(DeleteResult(1)) &&
            r.1 == orders[..i] + orders[i + 1..] &&
            UniqueOrderIds(r.1)
  {
    ParseCanonical(orders[i].id);
    OrderIndexOfUnique(orders, i);
    assert RemoveAt(orders, i) == orders[..i] + orders[i + 1..];
    RemoveAtKeepsUniqueOrderIds(orders, i);
  }

  /** After such a cancellation the orders are exactly those stored before
      with a different id, the cancelled one taken out of the multiset once. */
  lemma CancelKeepsEveryOtherOrder(orders: seq<Order>, i: nat)
    requires UniqueOrderIds(orders) && i < |orders| && Canonical(orders[i].id)
    requires orders[i].status != "delivered"
    ensures var r := CancelOrder(orders, orders[i].id.hex).1;
            multiset(r) == multiset(orders) - multiset{orders[i]} &&
            forall o :: o in r <==> o in orders && o.id != orders[i].id
  {
    ParseCanonical(orders[i].id);
    OrderIndexOfUnique(orders, i);
    RemoveAtKeepsOtherIds(orders, i);
  }

  /** Whatever the case of the id text, a successful cancellation leaves
      exactly the stored orders whose id differs from the parsed one. */
  lemma CancelKeepsOthersById(orders: seq<Order>, idText: string)
    requires UniqueOrderIds(orders)
    ensures var r := CancelOrder(orders, idText);
            r.0.Ok? ==>
              IsObjectIdText(idText) &&
              forall o :: o in r.1 <==> o in orders && o.id != ParseObjectId(idText).value
  {
    if CancelOrder(orders, idText).0.Ok? {
      var k := OrderIndex(orders, ParseObjectId(idText).value).value;
      RemoveAtKeepsOtherIds(orders, k);
    }
  }

  /** The comparison is case-sensitive: "Delivered" does not block a cancellation. */
  lemma CancelIsCaseSensitive(orders: seq<Order>, i: nat)
    requires UniqueOrderIds(orders) && i < |orders| && Canonical(orders[i].id)
    requires orders[i].status == "Delivered"
    ensures CancelOrder(orders, orders[i].id.hex).0 == Ok(DeleteResult(1))
  {
    CancelRemovesExactlyThatOrder(orders, i);
  }
}
