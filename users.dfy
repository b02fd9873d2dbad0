/** The user routes: save on first login, the seller request, the role
    lookup, the admin's user listing and the role change. */
module Users {
  import opened Documents
  import opened Collections
  import opened Access

  /** The JSON body of `POST /users/:email`; `role` is whatever the client sent. */
  datatype UserBody = UserBody(
    email: string,
    name: string,
    image: string,
    role: Option<string>,
    status: Option<string>)

  /** `POST /users/:email` answers with the stored user, or with the insert's acknowledgement. */
  datatype SaveReply = Existing(user: User) | Inserted

  /** The document inserted for a new user: the body spread out, the role
      forced to "customer" and the clock reading as timestamp. */
  function NewUser(body: UserBody, now: int): User {
    User(body.email, body.name, body.image, "customer", body.status, now)
  }

  /** `POST /users/:email`: looks the user up by the path's email and inserts
      the body only when nobody has that email. */
  function SaveUser(users: seq<User>, email: string, body: UserBody, now: int): (r: (SaveReply, seq<User>))
    ensures r.0.Existing? <==> exists u :: u in users && u.email == email
    ensures r.0.Existing? ==> r.1 == users && r.0.user in users && r.0.user.email == email
    ensures r.0.Existing? ==> FindUser(users, email) == Some(r.0.user)
    ensures r.0.Inserted? ==>
              |r.1| == |users| + 1 && r.1[..|users|] == users &&
              r.1[|users|].role == "customer" && r.1[|users|].email == body.email &&
              r.1[|users|] == NewUser(body, now)
  {
    match FindUser(users, email)
    case Some(u) => (Existing(u), users)
    case None => (Inserted, users + [NewUser(body, now)])
  }

  /** `GET /user/role/:email` answers `{ role: result?.role }`. */
  function RoleOf(users: seq<User>, email: string): (r: Option<string>)
    ensures r.None? <==> forall u :: u in users ==> u.email != email
    ensures r.Some? ==> HasRole(users, email, r.value)
  {
    match FindUser(users, email)
    case None => None
    case Some(u) => Some(u.role)
  }

  /** Saving the same login twice changes nothing the second time, whatever the clock says. */
  lemma SaveUserIdempotent(users: seq<User>, email: string, body: UserBody, now: int, later: int)
    requires body.email == email
    ensures var after := SaveUser(users, email, body, now).1;
            SaveUser(after, email, body, later).1 == after &&
            SaveUser(after, email, body, later).0.Existing?
  {
    var after := SaveUser(users, email, body, now).1;
    if SaveUser(users, email, body, now).0.Inserted? {
      assert after[|users|] in after;
    }
  }

  /** A first login is stored with role "customer", whatever role the body carried. */
  lemma SaveUserForcesCustomer(users: seq<User>, email: string, body: UserBody, now: int)
    requires body.email == email
    requires forall u :: u in users ==> u.email != email
    ensures RoleOf(SaveUser(users, email, body, now).1, email) == Some("customer")
  {
    var after := SaveUser(users, email, body, now).1;
    assert after == users + [NewUser(body, now)];
    assert UserIndex(after, email) == Some(|users|) by {
      assert after[|users|].email == email;
      assert forall j :: 0 <= j < |users| ==> after[j] == users[j] && users[j] in users;
    }
  }

  /** Saving keeps emails unique when the body's email is the path's. */
  lemma SaveUserKeepsEmailsUnique(users: seq<User>, email: string, body: UserBody, now: int)
    requires UniqueEmails(users) && body.email == email
    ensures UniqueEmails(SaveUser(users, email, body, now).1)
  {
    var after := SaveUser(users, email, body, now).1;
    if !SaveUser(users, email, body, now).0.Existing? {
      forall i | 0 <= i < |users| ensures after[i].email != after[|users|].email {
        assert after[i] == users[i] && users[i] in users;
      }
    }
  }

  /** Replacing one user by a record with the same email leaves every email lookup at the same position. */
  lemma UserIndexAfterUpdate(users: seq<User>, k: nat, u: User, email: string)
    requires k < |users| && u.email == users[k].email
    ensures UserIndex(users[k := u], email) == UserIndex(users, email)
  {
    var after := users[k := u];
    assert forall j :: 0 <= j < |users| ==> (after[j].email == email <==> users[j].email == email);
    var a, b := UserIndex(after, email), UserIndex(users, email);
    assert a.Some? <==> b.Some?;
  }

  /** `PATCH /user/:email`: a missing user or one whose status is already
      "Requested" gets 400; otherwise the found user's status becomes "Requested". */
  function RequestSeller(users: seq<User>, email: string): (r: (Result<UpdateResult>, seq<User>))
    ensures r.0.Err? <==> (forall u :: u in users ==> u.email != email) ||
                          FindUser(users, email).value.status == Some("Requested")
    ensures r.0.Err? ==> r.0.failure == BadRequest && r.1 == users
    ensures r.0.Ok? ==> r.0.value == UpdateResult(1, 1)
    ensures r.0.Ok? ==>
              exists k :: UserIndex(users, email) == Some(k) &&
                users[k].status != Some("Requested") &&
                r.1 == users[k := users[k].(status := Some("Requested"))]
  {
    match UserIndex(users, email)
    case None => (Err(BadRequest), users)
    case Some(k) =>
      if users[k].status == Some("Requested") then (Err(BadRequest), users)
      else (Ok(UpdateResult(1, 1)), users[k := users[k].(status := Some("Requested"))])
  }

  /** The guard against duplicates: a second seller request is always rejected. */
  lemma SecondSellerRequestRejected(users: seq<User>, email: string)
    ensures var after := RequestSeller(users, email).1;
            RequestSeller(after, email).0 == Err(BadRequest)
  {
    match UserIndex(users, email)
    case None =>
    case Some(k) =>
      if users[k].status != Some("Requested") {
        UserIndexAfterUpdate(users, k, users[k].(status := Some("Requested")), email);
      }
  }

  /** A seller request changes only the requesting user's status; every
      other email lookup and that user's role stay as they were. */
  lemma RequestSellerChangesOnlyStatus(users: seq<User>, email: string, other: string)
    requires other != email
    ensures var after := RequestSeller(users, email).1;
            FindUser(after, other) == FindUser(users, other) &&
            RoleOf(after, email) == RoleOf(users, email)
  {
    match UserIndex(users, email)
    case None =>
    case Some(k) =>
      if users[k].status != Some("Requested") {
        var u := users[k].(status := Some("Requested"));
        UserIndexAfterUpdate(users, k, u, other);
        UserIndexAfterUpdate(users, k, u, email);
      }
  }

  /** `find({ email: { $ne: email } })`: every user whose email differs, each as often as it is stored. */
  function UsersExcept(users: seq<User>, email: string): (r: seq<User>)
    ensures forall u: User :: u.email == email ==> multiset(r)[u] == 0
    ensures forall u: User :: u.email != email ==> multiset(r)[u] == multiset(users)[u]
  {
    if users == [] then []
    else
      assert users == [users[0]] + users[1..];
      (if users[0].email != email then [users[0]] else []) + UsersExcept(users[1..], email)
  }

  /** `GET /all-users/:email`: verifyAdmin on the caller, then every user but the path's email. */
  function AllUsers(users: seq<User>, caller: string, email: string): (r: Result<seq<User>>)
    ensures r.Err? <==> !IsAdmin(users, caller)
    ensures r.Err? ==> r.failure == Unauthorized
    ensures r.Ok? ==> forall u :: u in r.value <==> u in users && u.email != email
    ensures r.Ok? ==> forall u: User :: u.email != email ==> multiset(r.value)[u] == multiset(users)[u]
  {
    if !IsAdmin(users, caller) then Err(Unauthorized) else Ok(UsersExcept(users, email))
  }

  /** `updateOne({ email }, { $set: { role, status: "Verified" } })`. */
  function SetRoleVerified(users: seq<User>, email: string, role: string): (r: (UpdateResult, seq<User>))
    ensures UserIndex(users, email).None? ==> r == (UpdateResult(0, 0), users)
    ensures UserIndex(users, email).Some? ==>
              var k := UserIndex(users, email).value;
              r.0 == UpdateResult(1, if r.1 == users then 0 else 1) &&
              r.1 == users[k := users[k].(role := role, status := Some("Verified"))]
  {
    match UserIndex(users, email)
    case None => (UpdateResult(0, 0), users)
    case Some(k) =>
      var u := users[k].(role := role, status := Some("Verified"));
      assert users[k := u] == users <==> users[k] == u;
      (UpdateResult(1, if users[k] == u then 0 else 1), users[k := u])
  }

  /** After a role change the user found for that email has the new role and
      status "Verified"; lookups of every other email are unchanged. */
  lemma SetRoleVerifiedEffect(users: seq<User>, email: string, role: string, other: string)
    requires exists u :: u in users && u.email == email
    requires other != email
    ensures var after := SetRoleVerified(users, email, role).1;
            RoleOf(after, email) == Some(role) &&
            FindUser(after, email).value.status == Some("Verified") &&
            FindUser(after, other) == FindUser(users, other)
  {
    var k := UserIndex(users, email).value;
    var u := users[k].(role := role, status := Some("Verified"));
    UserIndexAfterUpdate(users, k, u, email);
    UserIndexAfterUpdate(users, k, u, other);
  }

  /** `PATCH /user-role/:email` as the source has it: only verifyToken runs,
      so the caller's own role is never consulted. */
  function UpdateUserRoleAsWritten(users: seq<User>, email: string, role: string)
    : (r: (Result<UpdateResult>, seq<User>))
    ensures r.0 == Ok(UpdateResult(if FindUser(users, email).Some? then 1 else 0,
                                   if r.1 == users then 0 else 1))
    ensures r.1 == SetRoleVerified(users, email, role).1
  {
    var (result, after) := SetRoleVerified(users, email, role);
    (Ok(result), after)
  }

  /** As written, any stored user, a customer included, can make themselves admin. */
  lemma AnyUserCanPromoteThemselves(users: seq<User>, caller: string)
    requires exists u :: u in users && u.email == caller
    ensures IsAdmin(UpdateUserRoleAsWritten(users, caller, "admin").1, caller)
  {
    var k := UserIndex(users, caller).value;
    UserIndexAfterUpdate(users, k, users[k].(role := "admin", status := Some("Verified")), caller);
  }

  /** `PATCH /user-role/:email` behind verifyAdmin, as the admin dashboard intends. */
  function UpdateUserRole(users: seq<User>, caller: string, email: string, role: string)
    : (r: (Result<UpdateResult>, seq<User>))
    ensures !IsAdmin(users, caller) ==> r == (Err(Unauthorized), users)
    ensures IsAdmin(users, caller) ==>
              r.0 == Ok(UpdateResult(if FindUser(users, email).Some? then 1 else 0,
                                     if r.1 == users then 0 else 1)) &&
              r.1 == SetRoleVerified(users, email, role).1
  {
    if !IsAdmin(users, caller) then (Err(Unauthorized), users)
    else
      var (result, after) := SetRoleVerified(users, email, role);
      (Ok(result), after)
  }

  /** Behind verifyAdmin nobody gains the admin role unless an admin asked
      for it, and an admin's request sets the role of its target. */
  lemma OnlyAdminsGrantRoles(users: seq<User>, caller: string, email: string, role: string, someone: string)
    ensures var after := UpdateUserRole(users, caller, email, role).1;
            IsAdmin(after, someone) ==> IsAdmin(users, someone) || IsAdmin(users, caller)
    ensures IsAdmin(users, caller) && (exists u :: u in users && u.email == email) ==>
              RoleOf(UpdateUserRole(users, caller, email, role).1, email) == Some(role)
  {
    if IsAdmin(users, caller) && exists u :: u in users && u.email == email {
      var k := UserIndex(users, email).value;
      UserIndexAfterUpdate(users, k, users[k].(role := role, status := Some("Verified")), email);
    }
  }
}
