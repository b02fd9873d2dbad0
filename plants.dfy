/** The plant routes: a seller adds a plant, anyone reads one by id, and the
    inventory adjuster moves a plant's quantity up or down. */
module Plants {
  import opened Documents
  import opened Collections
  import opened Access

  /** The JSON body of `POST /plant`; the store assigns the `_id`. */
  datatype PlantBody = PlantBody(
    name: string,
    category: string,
    description: string,
    price: real,
    quantity: int,
    imageURL: string,
    seller: SellerInfo)

  function WithId(body: PlantBody, id: ObjectId): Plant {
    Plant(id, body.name, body.category, body.description, body.price, body.quantity,
          body.imageURL, body.seller)
  }

  /** `POST /plant` behind verifySeller: a caller who is not a seller is
      refused before anything is written; otherwise the plant is inserted
      under the id the driver generated. */
  function AddPlant(users: seq<User>, plants: seq<Plant>, caller: string, body: PlantBody, newId: ObjectId)
    : (r: (Result<ObjectId>, seq<Plant>))
    ensures !IsSeller(users, caller) ==> r == (Err(Unauthorized), plants)
    ensures IsSeller(users, caller) ==>
              r.0 == Ok(newId) && |r.1| == |plants| + 1 && r.1[..|plants|] == plants &&
              r.1[|plants|] == WithId(body, newId)
  {
    if !IsSeller(users, caller) then (Err(Unauthorized), plants)
    else (Ok(newId), plants + [WithId(body, newId)])
  }

  /** `GET /plants/:id`: a malformed id throws; otherwise the first plant
      with that `_id`, or null. */
  function GetPlant(plants: seq<Plant>, idText: string): (r: Result<Option<Plant>>)
    ensures r.Err? <==> !IsObjectIdText(idText)
    ensures r.Err? ==> r.failure == MalformedId
    ensures r.Ok? && r.value.Some? ==>
              r.value.value in plants && ParseObjectId(idText) == Some(r.value.value.id)
    ensures r.Ok? && r.value.None? ==>
              forall p :: p in plants ==> ParseObjectId(idText) != Some(p.id)
  {
    match ParseObjectId(idText)
    case None => Err(MalformedId)
    case Some(id) =>
      match PlantIndex(plants, id)
      case None => Ok(None)
      case Some(k) => Ok(Some(plants[k]))
  }

  /** A plant a seller adds is what reading its id back returns. */
  lemma AddedPlantIsFound(users: seq<User>, plants: seq<Plant>, caller: string, body: PlantBody, newId: ObjectId)
    requires IsSeller(users, caller) && Canonical(newId)
    requires forall p :: p in plants ==> p.id != newId
    ensures GetPlant(AddPlant(users, plants, caller, body, newId).1, newId.hex) == Ok(Some(WithId(body, newId)))
  {
    var after := AddPlant(users, plants, caller, body, newId).1;
    ParseCanonical(newId);
    assert forall j :: 0 <= j < |plants| ==> after[j] == plants[j] && plants[j] in plants;
    assert PlantIndex(after, newId) == Some(|plants|);
  }

  /** The `$inc` amount: `quantityToUpdate` when `status` is exactly
      "increase", its negation for any other status or none. */
  function QuantityDelta(quantityToUpdate: int, status: Option<string>): (d: int)
    ensures status == Some("increase") ==> d == quantityToUpdate
    ensures status != Some("increase") ==> d + quantityToUpdate == 0
  {
    if status == Some("increase") then quantityToUpdate else -quantityToUpdate
  }

  /** `updateOne({ _id: id }, { $inc: { quantity: delta } })`: only the first
      plant with that id changes, and only its quantity. */
  function IncQuantity(plants: seq<Plant>, id: ObjectId, delta: int): (r: seq<Plant>)
    ensures |r| == |plants|
    ensures forall i :: 0 <= i < |plants| ==> r[i].id == plants[i].id
    ensures PlantIndex(plants, id).None? ==> r == plants
    ensures PlantIndex(plants, id).Some? ==>
              var k := PlantIndex(plants, id).value;
              r[k] == plants[k].(quantity := plants[k].quantity + delta) &&
              forall i :: 0 <= i < |plants| && i != k ==> r[i] == plants[i]
  {
    match PlantIndex(plants, id)
    case None => plants
    case Some(k) => plants[k := plants[k].(quantity := plants[k].quantity + delta)]
  }

  /** `PATCH /plants/quantity/:id`: a malformed id throws; otherwise the
      signed `$inc`, reporting whether a plant matched and whether it changed. */
  function AdjustQuantity(plants: seq<Plant>, idText: string, quantityToUpdate: int, status: Option<string>)
    : (r: (Result<UpdateResult>, seq<Plant>))
    ensures !IsObjectIdText(idText) ==> r == (Err(MalformedId), plants)
    ensures IsObjectIdText(idText) ==>
              var id := ParseObjectId(idText).value;
              var found := PlantIndex(plants, id).Some?;
              r.1 == IncQuantity(plants, id, QuantityDelta(quantityToUpdate, status)) &&
              r.0 == Ok(UpdateResult(if found then 1 else 0,
                                     if found && quantityToUpdate != 0 then 1 else 0))
  {
    match ParseObjectId(idText)
    case None => (Err(MalformedId), plants)
    case Some(id) =>
      var delta := QuantityDelta(quantityToUpdate, status);
      var found := PlantIndex(plants, id).Some?;
      (Ok(UpdateResult(if found then 1 else 0, if found && delta != 0 then 1 else 0)),
       IncQuantity(plants, id, delta))
  }

  /** The adjuster aimed at a stored plant: that plant's quantity moves by
      +quantityToUpdate exactly when status is "increase" and by
      -quantityToUpdate otherwise, with no check that it stays non-negative;
      nothing else in the collection changes. */
  lemma AdjustQuantityEffect(plants: seq<Plant>, i: nat, quantityToUpdate: int, status: Option<string>)
    requires UniquePlantIds(plants) && i < |plants| && Canonical(plants[i].id)
    ensures var after := AdjustQuantity(plants, plants[i].id.hex, quantityToUpdate, status).1;
            |after| == |plants| &&
            (status == Some("increase") ==> after[i].quantity == plants[i].quantity + quantityToUpdate) &&
            (status != Some("increase") ==> after[i].quantity == plants[i].quantity - quantityToUpdate) &&
            after[i] == plants[i].(quantity := after[i].quantity) &&
            (forall j :: 0 <= j < |plants| && j != i ==> after[j] == plants[j])
  {
    ParseCanonical(plants[i].id);
    PlantIndexOfUnique(plants, i);
  }

  /** Nothing stops a decrease from driving the quantity below zero. */
  lemma DecreaseCanGoNegative(plants: seq<Plant>, i: nat, quantityToUpdate: int)
    requires UniquePlantIds(plants) && i < |plants| && Canonical(plants[i].id)
    requires plants[i].quantity < quantityToUpdate
    ensures AdjustQuantity(plants, plants[i].id.hex, quantityToUpdate, None).1[i].quantity < 0
  {
    AdjustQuantityEffect(plants, i, quantityToUpdate, None);
  }

  /** An increment never moves which plant the filter `{ _id: id }` finds. */
  lemma PlantIndexAfterInc(plants: seq<Plant>, id: ObjectId, delta: int, target: ObjectId)
    ensures PlantIndex(IncQuantity(plants, id, delta), target) == PlantIndex(plants, target)
  {
    var after := IncQuantity(plants, id, delta);
    var a, b := PlantIndex(after, target), PlantIndex(plants, target);
    assert a.Some? <==> b.Some?;
  }

  /** Increasing and then decreasing the same plant by the same amount
      restores the collection exactly. */
  lemma IncreaseThenDecreaseRestores(plants: seq<Plant>, idText: string, quantityToUpdate: int, status: Option<string>)
    requires status != Some("increase")
    ensures var raised := AdjustQuantity(plants, idText, quantityToUpdate, Some("increase")).1;
            AdjustQuantity(raised, idText, quantityToUpdate, status).1 == plants
  {
    if IsObjectIdText(idText) {
      var id := ParseObjectId(idText).value;
      var raised := IncQuantity(plants, id, quantityToUpdate);
      PlantIndexAfterInc(plants, id, quantityToUpdate, id);
      var lowered := IncQuantity(raised, id, -quantityToUpdate);
      if PlantIndex(plants, id).Some? {
        var k := PlantIndex(plants, id).value;
        assert forall j :: 0 <= j < |plants| ==> lowered[j] == plants[j];
      }
    }
  }
}
