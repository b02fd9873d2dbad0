/** The role checks that guard privileged routes (verifyAdmin, verifySeller):
    look the caller's email up with `findOne` and compare the stored role. */
module Access {
  import opened Documents
  import opened Collections

  /** `usersCollection.findOne({ email })`. */
  function FindUser(users: seq<User>, email: string): (r: Option<User>)
    ensures r.Some? ==> r.value in users && r.value.email == email
    ensures r.None? <==> forall u :: u in users ==> u.email != email
  {
    match UserIndex(users, email)
    case None => None
    case Some(k) => Some(users[k])
  }

  /** The user record found for `email` exists and carries exactly `role`. */
  predicate HasRole(users: seq<User>, email: string, role: string)
    ensures HasRole(users, email, role) ==>
              exists u :: u in users && u.email == email && u.role == role
    ensures (forall u :: u in users ==> u.email != email) ==> !HasRole(users, email, role)
  {
    match FindUser(users, email)
    case None => false
    case Some(u) => u.role == role
  }

  /** verifyAdmin lets the request through. */
  predicate IsAdmin(users: seq<User>, caller: string)
    ensures IsAdmin(users, caller) ==>
              exists u :: u in users && u.email == caller && u.role == "admin"
    ensures (forall u :: u in users ==> u.email != caller) ==> !IsAdmin(users, caller)
  {
    HasRole(users, caller, "admin")
  }

  /** verifySeller lets the request through. */
  predicate IsSeller(users: seq<User>, caller: string)
    ensures IsSeller(users, caller) ==>
              exists u :: u in users && u.email == caller && u.role == "seller"
    ensures (forall u :: u in users ==> u.email != caller) ==> !IsSeller(users, caller)
  {
    HasRole(users, caller, "seller")
  }

  /** The guards fail closed: a caller is admitted only when a stored user
      with that email has exactly the required role; when emails are unique
      that is also enough. */
  lemma HasRoleIff(users: seq<User>, email: string, role: string)
    ensures UniqueEmails(users) ==>
              (HasRole(users, email, role) <==>
                exists u :: u in users && u.email == email && u.role == role)
  {
    if UniqueEmails(users) && exists u :: u in users && u.email == email && u.role == role {
      var u :| u in users && u.email == email && u.role == role;
      var i :| 0 <= i < |users| && users[i] == u;
      UserIndexOfUnique(users, i);
    }
  }

  /** No caller passes both guards. */
  lemma GuardsAreExclusive(users: seq<User>, caller: string)
    ensures !(IsAdmin(users, caller) && IsSeller(users, caller))
  {
  }

  /** Role comparison is exact: a caller whose found record has role "Admin"
      (or "Seller") does not pass verifyAdmin (or verifySeller), in any store. */
  lemma RoleIsCaseSensitive(users: seq<User>, caller: string)
    requires FindUser(users, caller).Some?
    ensures FindUser(users, caller).value.role == "Admin" ==> !IsAdmin(users, caller)
    ensures FindUser(users, caller).value.role == "Seller" ==> !IsSeller(users, caller)
  {
  }
}
