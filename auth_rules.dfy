/** The decisions of the register and login handlers that do not touch the store. */
module AuthRules {
  import opened Records
  import Middleware

  const AdminSuffix: string := "@admin.com"

  predicate EndsWith(s: string, suffix: string) {
    |suffix| <= |s| && s[|s| - |suffix|..] == suffix
  }

  /** Both register and login reject an absent or empty email or password. */
  predicate CredentialsGiven(email: Option<string>, password: Option<string>): (given: bool)
    ensures given <==> email != None && email != Some("") && password != None && password != Some("")
  {
    StringGiven(email) && StringGiven(password)
  }

  /** The role a new account receives. */
  function RoleFor(email: string): Role {
    if EndsWith(email, AdminSuffix) then ADMIN else CUSTOMER
  }

  /** A new account is an administrator exactly when its email is some
      local part followed by "@admin.com". */
  lemma AdminExactlyBySuffix(email: string)
    ensures RoleFor(email) == ADMIN <==> exists local :: email == local + AdminSuffix
  {
    if RoleFor(email) == ADMIN {
      var local := email[..|email| - |AdminSuffix|];
      assert email == local + AdminSuffix;
    }
    if exists local :: email == local + AdminSuffix {
      var local :| email == local + AdminSuffix;
      assert email[|email| - |AdminSuffix|..] == AdminSuffix;
    }
  }

  /** The login reply: the user row with its password hash stripped. */
  function PublicView(u: User): PublicUser
  {
    PublicUser(u.id, u.email, u.name, u.role)
  }

  /** The reply never depends on the stored hash: two user rows give the same
      public view exactly when they differ at most in their password. */
  lemma PublicViewHidesPassword(u: User, v: User)
    ensures PublicView(u.(password := v.password)) == PublicView(u)
    ensures PublicView(u) == PublicView(v) <==> u.(password := v.password) == v
  {
  }

  /** A request whose attached payload carries the role that RoleFor gives
      passes `adminOnly` exactly when the email carries the administrator suffix. */
  lemma AdminGateFollowsEmail(req: Middleware.AuthRequest, email: string, id: int)
    requires req.user == Some(Payload(id, RoleName(RoleFor(email))))
    ensures Middleware.AdminOnly(req) == Middleware.Next <==> EndsWith(email, AdminSuffix)
  {
    assert RoleName(CUSTOMER) != "ADMIN";
  }
}
