/**
 * The role gate: authentication first, then a membership test of the
 * request user's role in the list of roles the route admits.
 */
module Rbac {
  import opened Common
  import opened Users
  import opened Tokens

  datatype Gate =
    | Admit(user: Claims)
    | Unauthorized(failure: AuthFailure)   // 401, already answered by authentication
    | Forbidden(message: string)           // 403

  const ForbiddenLead := "This action requires one of these roles: "

  /** The request user's `role` field, when it is a string. */
  function RoleOf(user: Claims): (r: Option<string>)
    ensures r.Some? <==> "role" in user && user["role"].JStr?
    ensures r.Some? ==> user["role"] == JStr(r.value)
  {
    if "role" in user && user["role"].JStr? then Some(user["role"].s) else None
  }

  /** `checkRole(requiredRoles)` applied to what authentication produced. */
  function CheckRole(required: seq<string>, auth: Result<Claims, AuthFailure>): (g: Gate)
    ensures auth.Err? ==> g == Unauthorized(auth.error)
    ensures g.Admit? <==> auth.Ok? && RoleOf(auth.value).Some? && RoleOf(auth.value).value in required
    ensures g.Admit? ==> g.user == auth.value
    ensures g.Forbidden? ==> g.message == ForbiddenLead + Join(required, ", ")
    ensures auth.Ok? && !g.Admit? ==> g.Forbidden?
  {
    match auth
    case Err(f) => Unauthorized(f)
    case Ok(user) =>
      if RoleOf(user).Some? && RoleOf(user).value in required then Admit(user)
      else Forbidden(ForbiddenLead + Join(required, ", "))
  }

  function AdminOnly(auth: Result<Claims, AuthFailure>): (g: Gate)
    ensures g.Admit? <==> auth.Ok? && RoleOf(auth.value) == Some("ADMIN")
    ensures auth.Err? ==> g == Unauthorized(auth.error)
  {
    CheckRole(["ADMIN"], auth)
  }

  function CustomerOnly(auth: Result<Claims, AuthFailure>): (g: Gate)
    ensures g.Admit? <==> auth.Ok? && RoleOf(auth.value) == Some("CUSTOMER")
    ensures auth.Err? ==> g == Unauthorized(auth.error)
  {
    CheckRole(["CUSTOMER"], auth)
  }

  /** `authenticatedOnly`: authentication alone, no role test. */
  function AuthenticatedOnly(auth: Result<Claims, AuthFailure>): (g: Gate)
    ensures g.Admit? <==> auth.Ok?
    ensures !g.Forbidden?
  {
    match auth
    case Err(f) => Unauthorized(f)
    case Ok(user) => Admit(user)
  }

  /**
   * End to end: a request passes `adminOnly` exactly when its access token
   * verifies, names a stored user, and the store (not the token) says that
   * user is an administrator.
   */
  lemma {:induction false} AdminGateUsesStoredRole(cfg: Config, users: Table, header: Option<Token>, now: int)
    ensures AdminOnly(Authenticated(cfg, users, header, now)).Admit? <==>
      Authenticated(cfg, users, header, now).Ok? && users[Subject(header.value.claims).value].role == Admin
  {
    var auth := Authenticated(cfg, users, header, now);
    if auth.Ok? {
      var u := users[Subject(header.value.claims).value];
      assert RoleOf(auth.value) == Some(RoleName(u.role));
    }
  }

  /** The same for `customerOnly`. */
  lemma {:induction false} CustomerGateUsesStoredRole(cfg: Config, users: Table, header: Option<Token>, now: int)
    ensures CustomerOnly(Authenticated(cfg, users, header, now)).Admit? <==>
      Authenticated(cfg, users, header, now).Ok? && users[Subject(header.value.claims).value].role == Customer
  {
    var auth := Authenticated(cfg, users, header, now);
    if auth.Ok? {
      var u := users[Subject(header.value.claims).value];
      assert RoleOf(auth.value) == Some(RoleName(u.role));
    }
  }

  /** A stale role claim in the token cannot open the admin gate once the stored role is CUSTOMER. */
  lemma {:induction false} StaleAdminClaimRefused(cfg: Config, users: Table, t: Token, now: int)
    requires t.Signed? && "role" in t.claims && t.claims["role"] == JStr("ADMIN")
    requires Subject(t.claims).Some? && Subject(t.claims).value in users
    requires users[Subject(t.claims).value].role == Customer
    ensures !AdminOnly(Authenticated(cfg, users, Some(t), now)).Admit?
  {
    AdminGateUsesStoredRole(cfg, users, Some(t), now);
  }
}
