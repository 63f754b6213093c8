/** The guard every admin endpoint runs first (the three endpoints under src/pages/api/admin): a
    session is required (401), and its user must have an admin_logins row (403). */
module AdminApi {
  import opened Types

  const Ok := 200
  const BadRequest := 400
  const Unauthorized := 401
  const Forbidden := 403
  const InternalError := 500

  /** An endpoint's answer: a JSON payload with status 200, or an error status. */
  datatype Reply<T> = Success(value: T) | Failure(status: int)

  datatype Guard = Admitted(admin: AdminLogin) | Denied(status: int)

  /** `getSession()` gives the caller's auth id, or nothing; admin_logins is keyed by auth id. */
  function AdminGuard(session: Option<Id>, admins: map<Id, AdminLogin>): (g: Guard)
    ensures g == Denied(Unauthorized) <==> session.None?
    ensures g == Denied(Forbidden) <==> session.Some? && session.value !in admins
    ensures g.Admitted? <==> session.Some? && session.value in admins
    ensures g.Admitted? ==> g.admin == admins[session.value]
  {
    match session
    case None => Denied(Unauthorized)
    case Some(authId) =>
      if authId in admins then Admitted(admins[authId]) else Denied(Forbidden)
  }

  /** `!value` in JavaScript for a string field that may be absent: absent or empty. */
  predicate Blank(value: Option<string>) {
    value.None? || value.value == ""
  }

  /** `value || null` for an optional string: the empty string becomes null. */
  function OrNull(value: Option<string>): (r: Option<string>)
    ensures r.None? <==> Blank(value)
    ensures r.Some? ==> r == value
  {
    if Blank(value) then None else value
  }
}
