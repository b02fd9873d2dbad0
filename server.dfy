/** The server's database as one object: the three collections, changed in
    place by the handlers of the mutating routes. Each handler takes the
    steps its route takes and is specified by the function of the same name
    in Users, Plants or Orders, with one exception: UpdateUserRole adds the
    verifyAdmin check that `PATCH /user-role/:email` lacks (the route as it
    stands is Users.UpdateUserRoleAsWritten). The authenticated identity that verifyToken
    decodes from the session cookie is the `caller` parameter; ids the
    driver generates and the clock are parameters too. */
module Server {
  import opened Documents
  import opened Collections
  import opened Access
  import Users
  import Plants
  import Orders

  class Store {
    var users: seq<User>
    var plants: seq<Plant>
    var orders: seq<Order>

    /** What the `_id` index and the driver guarantee: unique, canonical
        plant and order ids. These are the preconditions of the lemmas in
        Plants and Orders about a stored document (AdjustQuantityEffect,
        CancelRemovesExactlyThatOrder, CancelKeepsEveryOtherOrder), so every
        handler keeps it. */
    ghost predicate Valid()
      reads this
    {
      && UniquePlantIds(plants)
      && UniqueOrderIds(orders)
      && (forall p :: p in plants ==> Canonical(p.id))
      && (forall o :: o in orders ==> Canonical(o.id))
    }

    constructor ()
      ensures Valid()
      ensures users == [] && plants == [] && orders == []
    {
      users, plants, orders := [], [], [];
    }

    /** `POST /users/:email`. */
    method SaveUser(email: string, body: Users.UserBody, now: int) returns (reply: Users.SaveReply)
      requires Valid()
      modifies this
      ensures Valid()
      ensures (reply, users) == Users.SaveUser(old(users), email, body, now)
      ensures plants == old(plants) && orders == old(orders)
    {
      var isExist := FindUser(users, email);
      if isExist.Some? {
        return Users.Existing(isExist.value);
      }
      users := users + [Users.NewUser(body, now)];
      reply := Users.Inserted;
    }

    /** `POST /plant`, behind verifySeller. */
    method AddPlant(caller: string, body: Plants.PlantBody, newId: ObjectId) returns (r: Result<ObjectId>)
      requires Valid()
      requires Canonical(newId) && forall p :: p in plants ==> p.id != newId
      modifies this
      ensures Valid()
      ensures (r, plants) == Plants.AddPlant(old(users), old(plants), caller, body, newId)
      ensures users == old(users) && orders == old(orders)
    {
      if !IsSeller(users, caller) {
        return Err(Unauthorized);
      }
      var plant := Plants.WithId(body, newId);
      assert forall i :: 0 <= i < |plants| ==> plants[i] in plants;
      plants := plants + [plant];
      r := Ok(newId);
    }

    /** `POST /order`. */
    method PlaceOrder(body: Orders.OrderBody, newId: ObjectId) returns (insertedId: ObjectId)
      requires Valid()
      requires Canonical(newId) && forall o :: o in orders ==> o.id != newId
      modifies this
      ensures Valid()
      ensures orders == Orders.PlaceOrder(old(orders), body, newId)
      ensures insertedId == newId && orders[|orders| - 1].id == insertedId
      ensures users == old(users) && plants == old(plants)
    {
      assert forall i :: 0 <= i < |orders| ==> orders[i] in orders;
      orders := orders + [Orders.OrderWithId(body, newId)];
      insertedId := newId;
    }

    /** `PATCH /plants/quantity/:id`. */
    method AdjustQuantity(idText: string, quantityToUpdate: int, status: Option<string>)
      returns (r: Result<UpdateResult>)
      requires Valid()
      modifies this
      ensures Valid()
      ensures (r, plants) == Plants.AdjustQuantity(old(plants), idText, quantityToUpdate, status)
      ensures users == old(users) && orders == old(orders)
    {
      var filter := ParseObjectId(idText);
      if filter.None? {
        return Err(MalformedId);
      }
      var updateDoc := -quantityToUpdate;
      if status == Some("increase") {
        updateDoc := quantityToUpdate;
      }
      var found := PlantIndex(plants, filter.value);
      if found.None? {
        return Ok(UpdateResult(0, 0));
      }
      var k := found.value;
      ghost var before := plants;
      plants := plants[k := plants[k].(quantity := plants[k].quantity + updateDoc)];
      assert forall i :: 0 <= i < |plants| ==> plants[i].id == before[i].id;
      assert forall p :: p in plants ==> p in before || p == plants[k];
      r := Ok(UpdateResult(1, if updateDoc != 0 then 1 else 0));
    }

    /** `DELETE /orders/:id`; the plants are not touched. */
    method CancelOrder(idText: string) returns (r: Result<DeleteResult>)
      requires Valid()
      modifies this
      ensures Valid()
      ensures (r, orders) == Orders.CancelOrder(old(orders), idText)
      ensures r.Ok? ==>
                IsObjectIdText(idText) &&
                forall o :: o in orders <==> o in old(orders) && o.id != ParseObjectId(idText).value
      ensures users == old(users) && plants == old(plants)
    {
      Orders.CancelKeepsOthersById(orders, idText);
      var query := ParseObjectId(idText);
      if query.None? {
        return Err(MalformedId);
      }
      var order := OrderIndex(orders, query.value);
      if order.None? {
        return Err(OrderMissing);
      }
      var k := order.value;
      if orders[k].status == "delivered" {
        return Err(Conflict);
      }
      RemoveAtKeepsUniqueOrderIds(orders, k);
      ghost var before := orders;
      orders := RemoveAt(orders, k);
      assert forall o :: o in orders ==> o in multiset(before);
      r := Ok(DeleteResult(1));
    }

    /** `PATCH /user/:email`. */
    method RequestSeller(email: string) returns (r: Result<UpdateResult>)
      requires Valid()
      modifies this
      ensures Valid()
      ensures (r, users) == Users.RequestSeller(old(users), email)
      ensures plants == old(plants) && orders == old(orders)
    {
      var user := UserIndex(users, email);
      if user.None? || users[user.value].status == Some("Requested") {
        return Err(BadRequest);
      }
      var k := user.value;
      users := users[k := users[k].(status := Some("Requested"))];
      r := Ok(UpdateResult(1, 1));
    }

    /** `PATCH /user-role/:email`, behind verifyAdmin (see UpdateUserRoleAsWritten
        in Users for the route without it). */
    method UpdateUserRole(caller: string, email: string, role: string) returns (r: Result<UpdateResult>)
      requires Valid()
      modifies this
      ensures Valid()
      ensures (r, users) == Users.UpdateUserRole(old(users), caller, email, role)
      ensures plants == old(plants) && orders == old(orders)
    {
      if !IsAdmin(users, caller) {
        return Err(Unauthorized);
      }
      var filter := UserIndex(users, email);
      if filter.None? {
        return Ok(UpdateResult(0, 0));
      }
      var k := filter.value;
      var updated := users[k].(role := role, status := Some("Verified"));
      var modified := if users[k] == updated then 0 else 1;
      users := users[k := updated];
      r := Ok(UpdateResult(1, modified));
    }
  }
}
