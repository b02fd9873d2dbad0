/** How the document store locates documents: `findOne`, `updateOne` and
    `deleteOne` act on the first document, in the collection's natural order,
    that matches the filter. */
module Collections {
  import opened Documents

  /** Position of the first element that matches, if any. */
  function FirstMatch<T>(s: seq<T>, matches: T -> bool): (k: Option<nat>)
    ensures k.Some? ==> k.value < |s| && matches(s[k.value])
    ensures k.Some? ==> forall j :: 0 <= j < k.value ==> !matches(s[j])
    ensures k.None? ==> forall j :: 0 <= j < |s| ==> !matches(s[j])
  {
    if s == [] then None
    else if matches(s[0]) then Some(0)
    else match FirstMatch(s[1..], matches)
      case None => None
      case Some(k) => Some(k + 1)
  }

  /** `deleteOne` on the document at position k. */
  function RemoveAt<T>(s: seq<T>, k: nat): (r: seq<T>)
    requires k < |s|
    ensures |r| == |s| - 1
    ensures forall i :: 0 <= i < k ==> r[i] == s[i]
    ensures forall i :: k <= i < |r| ==> r[i] == s[i + 1]
    ensures multiset(r) + multiset{s[k]} == multiset(s)
  {
    assert s == s[..k] + [s[k]] + s[k + 1..];
    s[..k] + s[k + 1..]
  }

  /** The filter `{ _id: id }` on plants. */
  function PlantIndex(plants: seq<Plant>, id: ObjectId): (k: Option<nat>)
    ensures k.Some? ==> k.value < |plants| && plants[k.value].id == id
    ensures k.Some? ==> forall j :: 0 <= j < k.value ==> plants[j].id != id
    ensures k.None? ==> forall j :: 0 <= j < |plants| ==> plants[j].id != id
  {
    FirstMatch(plants, (p: Plant) => p.id == id)
  }

  /** The filter `{ _id: id }` on orders. */
  function OrderIndex(orders: seq<Order>, id: ObjectId): (k: Option<nat>)
    ensures k.Some? ==> k.value < |orders| && orders[k.value].id == id
    ensures k.Some? ==> forall j :: 0 <= j < k.value ==> orders[j].id != id
    ensures k.None? ==> forall j :: 0 <= j < |orders| ==> orders[j].id != id
  {
    FirstMatch(orders, (o: Order) => o.id == id)
  }

  /** The filter `{ email }` on users. */
  function UserIndex(users: seq<User>, email: string): (k: Option<nat>)
    ensures k.Some? ==> k.value < |users| && users[k.value].email == email
    ensures k.Some? ==> forall j :: 0 <= j < k.value ==> users[j].email != email
    ensures k.None? ==> forall j :: 0 <= j < |users| ==> users[j].email != email
  {
    FirstMatch(users, (u: User) => u.email == email)
  }

  /** The store's unique index on `_id`. */
  predicate UniquePlantIds(plants: seq<Plant>) {
    forall i, j :: 0 <= i < j < |plants| ==> plants[i].id != plants[j].id
  }

  predicate UniqueOrderIds(orders: seq<Order>) {
    forall i, j :: 0 <= i < j < |orders| ==> orders[i].id != orders[j].id
  }

  /** No index enforces this one; some lemmas assume it. */
  predicate UniqueEmails(users: seq<User>) {
    forall i, j :: 0 <= i < j < |users| ==> users[i].email != users[j].email
  }

  /** With unique ids, the filter `{ _id: p.id }` finds p itself. */
  lemma PlantIndexOfUnique(plants: seq<Plant>, i: nat)
    requires UniquePlantIds(plants) && i < |plants|
    ensures PlantIndex(plants, plants[i].id) == Some(i)
  {
  }

  lemma OrderIndexOfUnique(orders: seq<Order>, i: nat)
    requires UniqueOrderIds(orders) && i < |orders|
    ensures OrderIndex(orders, orders[i].id) == Some(i)
  {
  }

  lemma UserIndexOfUnique(users: seq<User>, i: nat)
    requires UniqueEmails(users) && i < |users|
    ensures UserIndex(users, users[i].email) == Some(i)
  {
  }

  /** Deleting one order keeps the `_id` index unique. */
  lemma RemoveAtKeepsUniqueOrderIds(orders: seq<Order>, k: nat)
    requires UniqueOrderIds(orders) && k < |orders|
    ensures UniqueOrderIds(RemoveAt(orders, k))
  {
    var r := RemoveAt(orders, k);
    forall i, j | 0 <= i < j < |r| ensures r[i].id != r[j].id {
      var i' := if i < k then i else i + 1;
      var j' := if j < k then j else j + 1;
      assert r[i] == orders[i'] && r[j] == orders[j'];
    }
  }

  /** With unique order ids, deleting the order at `k` leaves exactly the
      orders whose id differs from its id. */
  lemma RemoveAtKeepsOtherIds(orders: seq<Order>, k: nat)
    requires UniqueOrderIds(orders) && k < |orders|
    ensures forall o :: o in RemoveAt(orders, k) <==> o in orders && o.id != orders[k].id
  {
    var r := RemoveAt(orders, k);
    forall o ensures o in r <==> o in orders && o.id != orders[k].id {
      if o in r {
        var j :| 0 <= j < |r| && r[j] == o;
        var j' := if j < k then j else j + 1;
        assert o == orders[j'] && j' != k;
      }
      if o in orders && o.id != orders[k].id {
        var j :| 0 <= j < |orders| && orders[j] == o;
        assert j != k;
        assert o == r[if j < k then j else j - 1];
      }
    }
  }
}
