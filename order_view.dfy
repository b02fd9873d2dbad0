/** The customer-orders view (`GET /customer-orders/:email`): an aggregation
    that keeps the customer's orders, converts each plantId text to an
    ObjectId, joins the plants on `_id`, unwinds the join, copies the plant's
    name, image and category into the order and drops the joined array. */
module OrderView {
  import opened Documents
  import opened Collections
  import opened Orders

  /** One record of the view. `plantId` is the converted ObjectId; there is
      no `plants` field. */
  datatype EnrichedOrder = EnrichedOrder(
    id: ObjectId,
    plantId: ObjectId,
    quantity: int,
    price: real,
    customer: CustomerInfo,
    status: string,
    name: string,
    image: string,
    category: string)

  /** The order plus `name`, `image` (from `imageURL`) and `category` of the plant. */
  function Enrich(o: Order, plantId: ObjectId, p: Plant): (e: EnrichedOrder)
    ensures e.id == o.id && e.quantity == o.quantity && e.price == o.price &&
            e.customer == o.customer && e.status == o.status && e.plantId == plantId
    ensures e.name == p.name && e.image == p.imageURL && e.category == p.category
  {
    EnrichedOrder(o.id, plantId, o.quantity, o.price, o.customer, o.status,
                  p.name, p.imageURL, p.category)
  }

  /** `$lookup` then `$unwind` for one order: one record per plant whose
      `_id` equals the converted plantId, in plant order, and none when no
      plant has it (the order is dropped). */
  function LookupUnwind(o: Order, plantId: ObjectId, plants: seq<Plant>): (r: seq<EnrichedOrder>)
    ensures forall e :: e in r ==> exists p :: p in plants && p.id == plantId && e == Enrich(o, plantId, p)
    ensures forall p :: p in plants && p.id == plantId ==> Enrich(o, plantId, p) in r
  {
    if plants == [] then []
    else
      (if plants[0].id == plantId then [Enrich(o, plantId, plants[0])] else []) +
      LookupUnwind(o, plantId, plants[1..])
  }

  /** The whole pipeline. `$toObjectId` fails the aggregation as soon as one
      matched order's plantId is not an ObjectId text; orders of other
      customers are never converted. */
  function CustomerOrders(orders: seq<Order>, plants: seq<Plant>, email: string): (r: Result<seq<EnrichedOrder>>)
    ensures r.Err? <==> exists o :: o in orders && o.customer.email == email && !IsObjectIdText(o.plantId)
    ensures r.Err? ==> r.failure == MalformedId
    ensures r.Ok? ==>
              forall e :: e in r.value ==>
                exists o, p :: o in orders && o.customer.email == email && p in plants &&
                  ParseObjectId(o.plantId) == Some(p.id) && e == Enrich(o, p.id, p)
  {
    if orders == [] then Ok([])
    else
      var o := orders[0];
      var rest := CustomerOrders(orders[1..], plants, email);
      if o.customer.email != email then rest
      else match ParseObjectId(o.plantId)
        case None => Err(MalformedId)
        case Some(plantId) =>
          if rest.Err? then rest else Ok(LookupUnwind(o, plantId, plants) + rest.value)
  }

  /** Every order of the customer whose plant exists shows up, enriched from that plant. */
  lemma {:induction false} CustomerOrdersComplete(orders: seq<Order>, plants: seq<Plant>, email: string, o: Order, p: Plant)
    requires CustomerOrders(orders, plants, email).Ok?
    requires o in orders && o.customer.email == email
    requires p in plants && ParseObjectId(o.plantId) == Some(p.id)
    ensures Enrich(o, p.id, p) in CustomerOrders(orders, plants, email).value
  {
    var rest := CustomerOrders(orders[1..], plants, email);
    if o == orders[0] {
      assert Enrich(o, p.id, p) in LookupUnwind(o, p.id, plants);
    } else {
      assert o in orders[1..];
      assert rest.Ok?;
      CustomerOrdersComplete(orders[1..], plants, email, o, p);
    }
  }

  /** The `$match` stage alone: the customer's orders in stored order. */
  function Matched(orders: seq<Order>, email: string): (r: seq<Order>)
    ensures forall o :: o in r <==> o in orders && o.customer.email == email
  {
    if orders == [] then []
    else (if orders[0].customer.email == email then [orders[0]] else []) + Matched(orders[1..], email)
  }

  /** The plant an order refers to exists. */
  predicate Resolves(o: Order, plants: seq<Plant>) {
    exists p :: p in plants && ParseObjectId(o.plantId) == Some(p.id)
  }

  /** Fetch each plant with `findOne({ _id })` and merge it into its order,
      dropping orders whose plant is gone. */
  function Merge(mine: seq<Order>, plants: seq<Plant>): (r: seq<EnrichedOrder>)
    requires forall o :: o in mine ==> IsObjectIdText(o.plantId)
    ensures |r| <= |mine|
    ensures (forall o :: o in mine ==> Resolves(o, plants)) ==> |r| == |mine|
  {
    if mine == [] then []
    else
      var plantId := ParseObjectId(mine[0].plantId).value;
      assert mine[0] in mine;
      assert forall o :: o in mine[1..] ==> o in mine;
      (match PlantIndex(plants, plantId)
       case None => []
       case Some(k) => [Enrich(mine[0], plantId, plants[k])]) +
      Merge(mine[1..], plants)
  }

  /** The same view computed in two steps outside the database: fetch the
      customer's orders, then merge in their plants. */
  function FetchThenMerge(orders: seq<Order>, plants: seq<Plant>, email: string): Result<seq<EnrichedOrder>> {
    var mine := Matched(orders, email);
    if forall o :: o in mine ==> IsObjectIdText(o.plantId) then Ok(Merge(mine, plants))
    else Err(MalformedId)
  }

  /** With unique plant ids, the join yields the plant `findOne` returns, or nothing. */
  lemma {:induction false} LookupUnwindUnique(o: Order, plantId: ObjectId, plants: seq<Plant>)
    requires UniquePlantIds(plants)
    ensures LookupUnwind(o, plantId, plants) ==
              match PlantIndex(plants, plantId)
              case None => []
              case Some(k) => [Enrich(o, plantId, plants[k])]
  {
    if plants != [] {
      var tail := plants[1..];
      assert UniquePlantIds(tail);
      LookupUnwindUnique(o, plantId, tail);
      if plants[0].id == plantId {
        assert forall j :: 0 <= j < |tail| ==> tail[j].id != plantId by {
          forall j | 0 <= j < |tail| ensures tail[j].id != plantId {
            assert tail[j] == plants[j + 1];
          }
        }
        assert PlantIndex(tail, plantId).None?;
      } else {
        match PlantIndex(tail, plantId)
        case None =>
        case Some(k) =>
          assert plants[k + 1] == tail[k];
          assert forall j :: 0 <= j < k + 1 ==> plants[j].id != plantId by {
            forall j | 0 <= j < k + 1 ensures plants[j].id != plantId {
              if j > 0 { assert plants[j] == tail[j - 1]; }
            }
          }
          assert PlantIndex(plants, plantId) == Some(k + 1);
      }
    }
  }

  /** With unique plant ids (the store's `_id` index), the aggregation and
      the fetch-then-merge computation agree exactly, errors included: the
      view keeps the customer's orders in stored order, drops those whose
      plant is gone, and sorts nothing. */
  lemma {:induction false} PipelineIsFetchThenMerge(orders: seq<Order>, plants: seq<Plant>, email: string)
    requires UniquePlantIds(plants)
    ensures CustomerOrders(orders, plants, email) == FetchThenMerge(orders, plants, email)
  {
    if orders != [] {
      var o := orders[0];
      var tail := orders[1..];
      PipelineIsFetchThenMerge(tail, plants, email);
      var mine := Matched(orders, email);
      var mineTail := Matched(tail, email);
      if o.customer.email == email {
        assert mine == [o] + mineTail;
        assert mine[1..] == mineTail;
        if IsObjectIdText(o.plantId) {
          LookupUnwindUnique(o, ParseObjectId(o.plantId).value, plants);
        } else {
          assert o in mine;
        }
      } else {
        assert mine == mineTail;
      }
    }
  }

  /** A customer whose every order refers to an existing plant sees exactly
      as many records as they have orders. */
  lemma OneRecordPerOrder(orders: seq<Order>, plants: seq<Plant>, email: string)
    requires UniquePlantIds(plants)
    requires forall o :: o in orders && o.customer.email == email ==> IsObjectIdText(o.plantId) && Resolves(o, plants)
    ensures CustomerOrders(orders, plants, email).Ok?
    ensures |CustomerOrders(orders, plants, email).value| == |Matched(orders, email)|
  {
    PipelineIsFetchThenMerge(orders, plants, email);
  }

  /** An order placed for an existing plant appears in its customer's view. */
  lemma PlacedOrderIsViewed(orders: seq<Order>, plants: seq<Plant>, body: OrderBody, newId: ObjectId, p: Plant)
    requires p in plants && Canonical(p.id) && body.plantId == p.id.hex
    requires CustomerOrders(PlaceOrder(orders, body, newId), plants, body.customer.email).Ok?
    ensures Enrich(OrderWithId(body, newId), p.id, p) in
              CustomerOrders(PlaceOrder(orders, body, newId), plants, body.customer.email).value
  {
    var after := PlaceOrder(orders, body, newId);
    ParseCanonical(p.id);
    assert after[|orders|] == OrderWithId(body, newId);
    assert OrderWithId(body, newId) in after;
    CustomerOrdersComplete(after, plants, body.customer.email, OrderWithId(body, newId), p);
  }
}
