/** The authorisation middlewares and the two role-status routes:
    `verifyToken`, `verifyAdmin`, `verifyProvider`, `GET /user/admin/:email`
    and `GET /user/provider/:email`. */
module Roles {
  import opened Documents
  import opened Accounts

  /** What `verifyToken` gets out of the request: no usable token, or the
      token's decoded payload, of which only `email` is read. */
  datatype Auth = Unauthenticated | Authenticated(email: Option<string>)

  /** A middleware's verdict: call `next()`, or answer with a status and a
      `{message}` body. */
  datatype Gate = Pass | Deny(code: nat, message: string)

  const Unauthorized := Deny(401, "unauthorize access")
  const Forbidden := Deny(403, "forbidden access")

  /** `verifyToken`: a missing header or a token that does not verify is 401. */
  function VerifyToken(auth: Auth): Gate {
    if auth.Unauthenticated? then Unauthorized else Pass
  }

  /** `verifyAdmin` (role "admin") and `verifyProvider` (role "provider"),
      which run after `verifyToken` on the decoded email. */
  function VerifyRole(users: seq<Document<UserDoc>>, email: Option<string>, role: string): (g: Gate)
    ensures g.Pass? <==> exists k :: FirstWithEmail(users, email, k) && users[k].body.role == Some(role)
    ensures g.Deny? ==> g == Forbidden
  {
    if HasRole(users, email, role) then Pass else Forbidden
  }

  /** The chain `verifyToken, verifyAdmin` (or `verifyProvider`) in front of a
      handler. */
  function Guard(users: seq<Document<UserDoc>>, auth: Auth, role: string): (g: Gate)
    ensures g.Pass? <==> auth.Authenticated? && HasRole(users, auth.email, role)
    ensures g == Unauthorized <==> auth.Unauthenticated?
    ensures g.Deny? ==> g == Unauthorized || g == Forbidden
  {
    match VerifyToken(auth)
    case Deny(_, _) => VerifyToken(auth)
    case Pass => VerifyRole(users, auth.email, role)
  }

  /** The answer of a role-status route: a denial, or `{admin: b}` /
      `{provider: b}`. */
  datatype RoleReply = RoleDenied(gate: Gate) | RoleFlag(value: bool)

  /** `GET /user/admin/:email` (role "admin") and `GET /user/provider/:email`
      (role "provider"): only the token's own email may be asked about. */
  function RoleStatus(users: seq<Document<UserDoc>>, auth: Auth, pathEmail: string, role: string): (r: RoleReply)
    ensures r == RoleDenied(Unauthorized) <==> auth.Unauthenticated?
    ensures r == RoleDenied(Forbidden) <==> auth.Authenticated? && auth.email != Some(pathEmail)
    ensures auth == Authenticated(Some(pathEmail)) ==> r.RoleFlag?
    ensures r.RoleFlag? ==> r.value == HasRole(users, Some(pathEmail), role)
  {
    match VerifyToken(auth)
    case Deny(_, _) => RoleDenied(VerifyToken(auth))
    case Pass =>
      if Some(pathEmail) != auth.email then RoleDenied(Forbidden)
      else
        match FindUser(users, Some(pathEmail))
        case Some(u) => RoleFlag(u.role == Some(role))
        case None => RoleFlag(false)
  }

  /** The status route answers `true` exactly when the matching gate would let
      the same token through to a handler, and `false` exactly when the gate
      would refuse it with 403 although the email is the token's own. */
  lemma RoleStatusAgreesWithGuard(users: seq<Document<UserDoc>>, auth: Auth, pathEmail: string, role: string)
    ensures RoleStatus(users, auth, pathEmail, role) == RoleFlag(true) <==>
      auth == Authenticated(Some(pathEmail)) && Guard(users, auth, role).Pass?
    ensures RoleStatus(users, auth, pathEmail, role) == RoleFlag(false) <==>
      auth == Authenticated(Some(pathEmail)) && Guard(users, auth, role) == Forbidden
  {
  }

  /** One email is never both admitted as admin and as provider. */
  lemma AdminAndProviderExclusive(users: seq<Document<UserDoc>>, auth: Auth)
    ensures !(Guard(users, auth, AdminRole).Pass? && Guard(users, auth, ProviderRole).Pass?)
  {
  }
}
