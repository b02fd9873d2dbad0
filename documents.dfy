/** The documents of plantNet's three collections (users, plants, orders),
    the identifiers MongoDB gives them, and what a route handler can answer. */
module Documents {

  datatype Option<T> = None | Some(value: T)

  /** Why a request does not get its normal reply. */
  datatype Failure =
    | Unauthorized  // 401 from verifyAdmin or verifySeller
    | BadRequest    // 400 from the seller-request guard
    | Conflict      // 409 from the cancellation guard
    | MalformedId   // `new ObjectId(text)` or `$toObjectId` throws; the handler writes no reply
    | OrderMissing  // `order.status` is read on the null that findOne returned; the handler throws

  datatype Result<T> = Ok(value: T) | Err(failure: Failure)

  /** What `updateOne` and `deleteOne` report back to the client. */
  datatype UpdateResult = UpdateResult(matchedCount: nat, modifiedCount: nat)
  datatype DeleteResult = DeleteResult(deletedCount: nat)

  /** A MongoDB ObjectId, kept as its canonical text: 24 lower-case hex digits. */
  datatype ObjectId = ObjectId(hex: string)

  predicate IsHexDigit(c: char) {
    '0' <= c <= '9' || 'a' <= c <= 'f' || 'A' <= c <= 'F'
  }

  predicate IsLowerHexDigit(c: char) {
    '0' <= c <= '9' || 'a' <= c <= 'f'
  }

  /** The texts `new ObjectId(text)` and `$toObjectId` accept: exactly 24 hex digits, in either case. */
  predicate IsObjectIdText(s: string) {
    |s| == 24 && forall i :: 0 <= i < |s| ==> IsHexDigit(s[i])
  }

  predicate Canonical(id: ObjectId) {
    |id.hex| == 24 && forall i :: 0 <= i < |id.hex| ==> IsLowerHexDigit(id.hex[i])
  }

  function LowerHex(c: char): (d: char)
    ensures IsHexDigit(c) ==> IsLowerHexDigit(d)
    ensures IsLowerHexDigit(c) ==> d == c
  {
    if 'A' <= c <= 'F' then (c as int + 32) as char else c
  }

  /** `new ObjectId(text)`: fails on anything but 24 hex digits; upper and lower case name the same id. */
  function ParseObjectId(s: string): (r: Option<ObjectId>)
    ensures r.Some? <==> IsObjectIdText(s)
    ensures r.Some? ==> Canonical(r.value)
    ensures r.Some? ==> |r.value.hex| == |s| && forall i :: 0 <= i < |s| ==> r.value.hex[i] == LowerHex(s[i])
  {
    if IsObjectIdText(s) then Some(ObjectId(seq(|s|, i requires 0 <= i < |s| => LowerHex(s[i]))))
    else None
  }

  /** Printing an id and parsing the text back gives the same id. */
  lemma ParseCanonical(id: ObjectId)
    requires Canonical(id)
    ensures ParseObjectId(id.hex) == Some(id)
  {
    var h := id.hex;
    assert IsObjectIdText(h);
    var t := seq(|h|, i requires 0 <= i < |h| => LowerHex(h[i]));
    assert forall i :: 0 <= i < |h| ==> t[i] == h[i];
    assert t == h;
  }

  /** Seller details embedded in a plant. */
  datatype SellerInfo = SellerInfo(name: string, image: string, email: string)

  datatype Plant = Plant(
    id: ObjectId,
    name: string,
    category: string,
    description: string,
    price: real,
    quantity: int,
    imageURL: string,
    seller: SellerInfo)

  /** Customer details embedded in an order. */
  datatype CustomerInfo = CustomerInfo(email: string, name: string, address: string)

  /** An order refers to its plant by the TEXT of the plant's id, not by the id itself. */
  datatype Order = Order(
    id: ObjectId,
    plantId: string,
    quantity: int,
    price: real,
    customer: CustomerInfo,
    status: string)

  datatype User = User(
    email: string,
    name: string,
    image: string,
    role: string,
    status: Option<string>,
    timestamp: int)
}
