# plantNet server: request handling over users, plants and orders

plantNet is a plant-nursery marketplace. Its Express server keeps three MongoDB
collections: users, plants and orders. Each route handler is one guarded step
over them. This project models those handlers in Dafny and proves what each one
promises:

- **Access guards** (`verifyAdmin`, `verifySeller`): look the caller up by email.
  The caller is let through only when the stored role is exactly `"admin"` or
  exactly `"seller"`.
- **User lifecycle**:
  - save-if-absent on first login, with the role forced to `"customer"`;
  - the seller request and its duplicate guard;
  - the role lookup;
  - the admin's listing of everyone except a given email;
  - the role change.
- **Plants**:
  - a seller adds a plant;
  - anyone reads a plant by id;
  - the inventory adjuster applies a signed `$inc` to one plant's quantity.
- **Orders**:
  - placing an order;
  - the cancellation guard: an order whose status is exactly `"delivered"` gets 409;
    any other order is deleted.
- **Customer-orders view**: the aggregation
  `$match` → `$toObjectId` → `$lookup` → `$unwind` → `$addFields` → `$project`,
  written as a pure sequence function. For unique plant `_id`s (the store's
  index) it is proved equal to a fetch-then-merge reference definition.

Layout:

| file | module | contents |
|---|---|---|
| `documents.dfy` | `Documents` | the documents, ObjectId text and parsing, and failures |
| `collections.dfy` | `Collections` | first-match lookup (`findOne`/`updateOne`/`deleteOne`), deletion, and the `_id` index |
| `access.dfy` | `Access` | `verifyAdmin`, `verifySeller` |
| `users.dfy` | `Users` | the user routes |
| `plants.dfy` | `Plants` | the plant routes and the inventory adjuster |
| `orders.dfy` | `Orders` | placing and cancelling orders |
| `order_view.dfy` | `OrderView` | the customer-orders aggregation |
| `server.dfy` | `Server` | the `Store` class, with one method per mutating route |

Modelling choices:

- **Collections.** A collection is a sequence in the database's natural order.
  `findOne`, `updateOne` and `deleteOne` act on the first matching document.
- **`_id` values.**
  - Plants and orders have unique, canonical `_id`s. This is `Store.Valid`: the
    store's index enforces uniqueness and the driver generates the ids.
  - An ObjectId is 24 hex digits. Upper and lower case name the same id.
  - Text that is not an ObjectId makes the handler throw. This is modelled as
    `Err(MalformedId)`.
- **User emails.** No index makes user emails unique, and the model does not
  assume they are. The lemmas that need unique emails require it explicitly.
- **Read-only routes** are functions over the collections. **Mutating routes**
  are methods of `Server.Store`. Each method takes the handler's steps and
  ensures that the new collections equal the specification function of the same
  name. It also ensures that the other two collections are unchanged.
- **Inputs passed as parameters.**
  - the authenticated identity (`caller`), which `verifyToken` would decode
    from the cookie;
  - `Date.now()` (`now`);
  - driver-generated ids (`newId`).

## Model

| member | source | states |
|---|---|---|
| `Documents.ParseObjectId` | server/index.js:143 | `new ObjectId(text)` succeeds exactly on 24 hex digits (either case) and yields the canonical id: the same digits, each lower-cased |
| `Documents.ParseCanonical` | server/index.js:184 | a stored id's text converts back to that same id (what `$toObjectId` relies on to match a plant's `_id`) |
| `Collections.FirstMatch` | server/index.js:57 | `findOne`/`updateOne` select the first document in natural order that matches, and none exactly when no document matches |
| `Collections.RemoveAt` | server/index.js:223 | `deleteOne` removes that one document: the rest keep their order and the multiset loses exactly it |
| `Collections.RemoveAtKeepsUniqueOrderIds` | server/index.js:223 | deleting an order keeps order `_id`s unique |
| `Collections.RemoveAtKeepsOtherIds` | server/index.js:223 | with unique ids, deleting one order leaves exactly the orders whose id differs from it |
| `Access.FindUser` | server/index.js:56-57 | the user lookup returns a stored user with that email, and nothing exactly when no user has it |
| `Access.HasRoleIff` | server/index.js:54-77 | with unique emails, verifyAdmin/verifySeller admit a caller exactly when a stored user with that email has exactly the role |
| `Access.GuardsAreExclusive` | server/index.js:58-74 | no caller passes both guards |
| `Access.HasRole` | server/index.js:54-77 | a guard that passes has found a stored user with that email and exactly that role; a caller with no user record never passes |
| `Access.IsAdmin` | server/index.js:54-64 | verifyAdmin admits only a caller whose stored record has role exactly "admin", and never a caller with no record |
| `Access.IsSeller` | server/index.js:67-77 | verifySeller admits only a caller whose stored record has role exactly "seller", and never a caller with no record |
| `Access.RoleIsCaseSensitive` | server/index.js:58-71 | the role comparison is exact, in any users collection: a caller whose found record has role "Admin" is refused by verifyAdmin, one with "Seller" by verifySeller |
| `Users.SaveUser` | server/index.js:110-125 | an existing email returns the user `findOne` finds for it and leaves users unchanged; otherwise exactly one user is appended, with role "customer", the body's email and the given timestamp |
| `Users.SaveUserIdempotent` | server/index.js:115-118 | saving the same login twice leaves the second call without effect and answering with the stored user |
| `Users.SaveUserForcesCustomer` | server/index.js:119-123 | a first login is stored with role "customer" whatever role the body carried |
| `Users.SaveUserKeepsEmailsUnique` | server/index.js:115-123 | when the body's email is the path's, saving keeps emails unique |
| `Users.RoleOf` | server/index.js:247-251 | the role lookup is absent exactly when no user has the email, and otherwise is the role the found user has |
| `Users.RequestSeller` | server/index.js:228-244 | 400 with no change iff the user is missing or already "Requested"; otherwise only the first user with that email (the one `findOne` finds) has its status become "Requested" and the reply is matched 1, modified 1 |
| `Users.SecondSellerRequestRejected` | server/index.js:231-235 | after any seller request, a second one for the same email is refused with 400 |
| `Users.RequestSellerChangesOnlyStatus` | server/index.js:237-242 | a seller request leaves every other email's user and the requester's role unchanged |
| `Users.UsersExcept` | server/index.js:256-257 | the `$ne` query returns every user whose email differs, each with its stored multiplicity, and no user with that email |
| `Users.AllUsers` | server/index.js:254-259 | the listing is refused (401) iff the caller is not admin; otherwise it holds exactly the users whose email differs from the path's, each as often as it is stored |
| `Users.SetRoleVerified` | server/index.js:265-269 | the `$set` matches the first user with the email (or none, reporting 0/0), sets its role and status "Verified", and reports matched 1 and modified 1 when the document changed, 0 when it already held those values |
| `Users.SetRoleVerifiedEffect` | server/index.js:262-270 | after a role change the user found for that email has the new role and status "Verified"; lookups of other emails are unchanged |
| `Users.UpdateUserRoleAsWritten` | server/index.js:262-270 | the route as written never refuses (it takes no caller) and sends the `$set`'s counts: matched 1 iff a user has the email, modified 1 iff the users changed |
| `Users.AnyUserCanPromoteThemselves` | server/index.js:262-270 | as written, any stored user can make themselves pass verifyAdmin |
| `Users.UpdateUserRole` | server/index.js:262-270 | behind verifyAdmin, a non-admin caller is refused (401) with no change; an admin's request performs the role change and gets matched 1 iff a user has the email, modified 1 iff the users changed |
| `Users.OnlyAdminsGrantRoles` | server/index.js:262-270 | behind verifyAdmin, nobody becomes admin unless they already were or an admin asked, and an admin's request sets the target's role |
| `Plants.AddPlant` | server/index.js:128-132 | a caller who is not a seller is refused before any write; a seller's plant is appended under the generated id |
| `Plants.GetPlant` | server/index.js:141-146 | a malformed id throws; otherwise the answer is a stored plant with that id, or null exactly when none has it |
| `Plants.AddedPlantIsFound` | server/index.js:130-144 | a plant a seller adds is what reading its id back returns |
| `Plants.QuantityDelta` | server/index.js:161-168 | the `$inc` amount is +quantityToUpdate when status is exactly "increase" and its negation for any other status or none |
| `Plants.IncQuantity` | server/index.js:169 | `$inc` changes only the first plant with that id, and only its quantity; ids never change |
| `Plants.AdjustQuantity` | server/index.js:156-171 | a malformed id throws with no change; otherwise the `$inc` is +quantityToUpdate for status "increase" and −quantityToUpdate for anything else, with matched/modified reported |
| `Plants.AdjustQuantityEffect` | server/index.js:158-169 | on a stored plant the quantity moves by +q exactly when status is "increase" and by −q otherwise; every other field and every other plant is unchanged |
| `Plants.DecreaseCanGoNegative` | server/index.js:161-163 | no guard: decreasing by more than the stock leaves a negative quantity |
| `Plants.IncreaseThenDecreaseRestores` | server/index.js:159-169 | an increase followed by a decrease of the same amount on the same id restores the plants exactly |
| `Orders.PlaceOrder` | server/index.js:149-153 | exactly one order is appended: the whole body (plantId, quantity, price, customer, status) under the generated id; the stored orders are unchanged |
| `Orders.CancelOrder` | server/index.js:214-225 | the outcome is fixed in every case: a malformed id (and only that) throws, a missing order throws (null dereference), status exactly "delivered" gives 409, and otherwise the first order with that id is deleted and the rest keep their order; orders are unchanged exactly on the error paths |
| `Orders.CancelDeliveredIsConflict` | server/index.js:217-221 | cancelling a stored order whose status is "delivered" gives 409 and leaves orders unchanged |
| `Orders.CancelRemovesExactlyThatOrder` | server/index.js:216-224 | cancelling any other stored order deletes it (deletedCount 1): the others stay in order and ids stay unique |
| `Orders.CancelKeepsEveryOtherOrder` | server/index.js:223 | after such a cancellation the orders are exactly the stored ones with a different id; the multiset loses just the cancelled order |
| `Orders.CancelKeepsOthersById` | server/index.js:214-224 | with unique order ids, any successful cancellation (id text of either case) leaves exactly the stored orders whose id differs from the parsed one |
| `Orders.CancelIsCaseSensitive` | server/index.js:218 | an order with status "Delivered" is deleted |
| `OrderView.Enrich` | server/index.js:197-207 | a view record keeps every field of the order, carries the converted plantId, and takes name, image (from imageURL) and category from the plant |
| `OrderView.LookupUnwind` | server/index.js:187-195 | `$lookup` + `$unwind` give one record per plant with the converted id, and none for an order whose plant is missing |
| `OrderView.CustomerOrders` | server/index.js:174-211 | the view fails iff some order of that customer has a plantId that is not ObjectId text; every record is an order of that customer enriched from a plant whose `_id` its plantId names |
| `OrderView.CustomerOrdersComplete` | server/index.js:176-207 | every order of the customer whose plant exists appears, with name, image (from imageURL) and category copied from that plant |
| `OrderView.Matched` | server/index.js:176-181 | `$match` keeps exactly the orders whose customer.email equals the argument |
| `OrderView.Merge` | server/index.js:187-207 | the merge yields at most one record per order, and exactly one per order when every plant resolves |
| `OrderView.LookupUnwindUnique` | server/index.js:187-195 | with unique plant ids, the join of one order yields the plant `findOne` would return, or nothing |
| `OrderView.PipelineIsFetchThenMerge` | server/index.js:177-209 | with unique plant ids the aggregation equals fetch-then-merge: the customer's orders in stored order, missing plants dropped, no sort |
| `OrderView.OneRecordPerOrder` | server/index.js:177-209 | a customer whose orders all name existing plants gets exactly one record per order |
| `OrderView.PlacedOrderIsViewed` | server/index.js:151-207 | an order placed for an existing plant appears, enriched, in its customer's view |
| `Server.Store.SaveUser` | server/index.js:110-125 | the handler's steps produce `Users.SaveUser`'s reply and users; plants and orders are unchanged |
| `Server.Store.AddPlant` | server/index.js:128-132 | the handler's steps produce `Plants.AddPlant`; users and orders are unchanged; ids stay unique |
| `Server.Store.PlaceOrder` | server/index.js:149-153 | the handler appends the order as `Orders.PlaceOrder` says and answers with the inserted id, as `Server.Store.AddPlant` does; plant quantities are untouched |
| `Server.Store.AdjustQuantity` | server/index.js:156-171 | the handler's steps, including the reassigned update document, produce `Plants.AdjustQuantity`; users and orders are unchanged |
| `Server.Store.CancelOrder` | server/index.js:214-225 | the handler's steps produce `Orders.CancelOrder`; a successful cancellation leaves exactly the orders whose id differs from the parsed one; plants are unchanged, so cancelling restores no inventory |
| `Server.Store.RequestSeller` | server/index.js:228-244 | the handler's steps produce `Users.RequestSeller`; plants and orders are unchanged |
| `Server.Store.UpdateUserRole` | server/index.js:262-270 | the handler, behind verifyAdmin, produces `Users.UpdateUserRole`; plants and orders are unchanged |

## Findings

| source | as written | input that shows it | evidently intended | confidence | as-written member | corrected member |
|---|---|---|---|---|---|---|
| server/index.js:262 | `PATCH /user-role/:email` runs only `verifyToken`, so any logged-in user may set any user's role | a user stored with role "customer" sends `PATCH /user-role/<own email>` with body `{role: "admin"}`; afterwards verifyAdmin admits them | the route is the admin dashboard's role change and should run `verifyAdmin` like `GET /all-users/:email` (line 254) | medium; not executed | `Users.AnyUserCanPromoteThemselves` | `Users.OnlyAdminsGrantRoles` |

The model keeps the as-written route as `Users.UpdateUserRoleAsWritten`.
`Server.Store.UpdateUserRole` uses the corrected `Users.UpdateUserRole`.

## Left out

- **JWT and cookies.** Issuing and checking the session token (`verifyToken`, `/jwt`, `/logout`) and the cookie options are left out. The decoded identity is the `caller` parameter. Routes behind `verifyToken` alone take no caller.
- Users.UsersExcept: the listing's contents and multiplicities are stated, but not the order of its records, which is the stored order.
- **Plumbing.** The MongoDB client setup, CORS, the logger, the `GET /` greeting and `app.listen` are I/O plumbing.
- **`GET /plants`.** It returns the plants collection as stored. There is nothing to prove about it.
- **ObjectId internals.** Only the accepted text shape is modelled: 24 hex digits, case-insensitive. The 12-byte, numeric and ObjectId-object forms are not. `_id`s of user documents are not modelled because no route reads them.
- **Dynamic documents.** Fields have fixed types and are always present. A missing or non-numeric `quantityToUpdate`, a missing `plantId`, or extra body fields are not modelled. `$inc` on a non-number errors in the database.
- **Numbers.** Quantities are integers and prices are carried, never computed on. Fractional quantities, which the client's `parseFloat` allows, and floating-point `$inc` are not modelled.
- **Failure replies.** When a handler throws (a malformed id, or a cancelled order that does not exist), the model says so (`MalformedId`, `OrderMissing`). What Express then sends back is not modelled.
- **Concurrency.** Requests are modelled one at a time. Atomicity of `$inc` belongs to the database.
- **Body email differing from the path.** `Users.SaveUser` looks up the path's email but inserts the body. If the body's email differs from the path's, a later save of the same path inserts again. `SaveUserIdempotent` and `SaveUserKeepsEmailsUnique` therefore require the two emails to be equal.
- **Documented choices.**
  - Cancelling an order restores no inventory. `Server.Store.CancelOrder` ensures that plants are unchanged.
  - The quantity may go negative (`Plants.DecreaseCanGoNegative`).
  - A cancellation of a missing order is not a 404: the handler throws.

  The model keeps each of these as the code does.
