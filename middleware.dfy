/** The request gate (src/middleware.ts): builds the per-request context from the
    session identity and the two directories, classifies the path by the static
    route tables, and either forwards the request or redirects it. */
module Middleware {
  import opened Types

  const ProtectedRoutes: seq<string> := ["/dashboard", "/chart", "/predictions", "/dasha", "/birth-data"]
  const AdminRoutes: seq<string> := ["/admin"]
  const AuthRoutes: seq<string> := ["/auth/login"]
  const PublicAuthRoutes: seq<string> := ["/auth/pending", "/auth/rejected", "/auth/callback", "/auth/logout"]

  const LoginPage := "/auth/login"
  const PendingPage := "/auth/pending"
  const RejectedPage := "/auth/rejected"
  const AdminHome := "/admin"
  const Dashboard := "/dashboard"

  datatype Outcome = Forward | Redirect(target: string)

  /** `context.locals` after resolution: the identity (auth id), whether it is an
      admin, and its approval status (null when unknown). */
  datatype Locals = Locals(user: Option<Id>, isAdmin: bool, approvalStatus: Option<ApprovalStatus>)

  /** The admin directory (admin_logins) and the user directory
      (user_logins.approval_status), both keyed by auth id. A lookup that fails
      or finds nothing is a missing key. */
  type AdminDirectory = map<Id, AdminLogin>
  type UserDirectory = map<Id, ApprovalStatus>

  predicate StartsWith(s: string, prefix: string) {
    |prefix| <= |s| && s[..|prefix|] == prefix
  }

  /** `routes.some(route => path.startsWith(route))`. */
  function MatchesAny(path: string, routes: seq<string>): (r: bool)
    ensures r <==> exists i :: 0 <= i < |routes| && StartsWith(path, routes[i])
  {
    if routes == [] then false
    else StartsWith(path, routes[0]) || MatchesAny(path, routes[1..])
  }

  /** API routes and static assets skip the gate entirely. */
  predicate Bypassed(path: string) {
    StartsWith(path, "/api/") || StartsWith(path, "/_")
  }

  /** The context the gate resolves: no identity gives the anonymous context; an
      admin record makes the identity an approved admin without consulting the
      user directory; otherwise the user directory's status, or null. */
  function ContextOf(user: Option<Id>, admins: AdminDirectory, users: UserDirectory): (r: Locals)
    ensures r.user == user
    ensures user.None? ==> !r.isAdmin && r.approvalStatus.None?
    ensures r.isAdmin <==> user.Some? && user.value in admins
    ensures r.isAdmin ==> r.approvalStatus == Some(Approved)
    ensures user.Some? && !r.isAdmin ==>
              (r.approvalStatus.Some? <==> user.value in users) &&
              (user.value in users ==> r.approvalStatus == Some(users[user.value]))
  {
    match user
    case None => Locals(None, false, None)
    case Some(u) =>
      if u in admins then Locals(user, true, Some(Approved))
      else if u in users then Locals(user, false, Some(users[u]))
      else Locals(user, false, None)
  }

  /** The resolution as the gate performs it: initialise the locals, then
      overwrite them from the admin lookup or, failing that, the user lookup. */
  method ResolveContext(user: Option<Id>, admins: AdminDirectory, users: UserDirectory) returns (locals: Locals)
    ensures locals == ContextOf(user, admins, users)
  {
    locals := Locals(user, false, None);
    if user.Some? {
      var adminRecord := if user.value in admins then Some(admins[user.value]) else None;
      if adminRecord.Some? {
        locals := locals.(isAdmin := true, approvalStatus := Some(Approved));
      } else {
        var userRecord := if user.value in users then Some(users[user.value]) else None;
        if userRecord.Some? {
          locals := locals.(approvalStatus := Some(userRecord.value));
        }
      }
    }
  }

  /** An admin record makes the user directory irrelevant. */
  lemma AdminShortCircuit(u: Id, admins: AdminDirectory, users1: UserDirectory, users2: UserDirectory)
    requires u in admins
    ensures ContextOf(Some(u), admins, users1) == ContextOf(Some(u), admins, users2)
  {
  }

  datatype RouteClass = LoginRoute | PublicAuthRoute | AdminRoute | ProtectedRoute | Unclassified

  /** First match wins, in the order login, public auth, admin, protected. */
  function Classify(path: string): (c: RouteClass)
    ensures c == LoginRoute <==> MatchesAny(path, AuthRoutes)
    ensures c == PublicAuthRoute <==> !MatchesAny(path, AuthRoutes) && MatchesAny(path, PublicAuthRoutes)
    ensures c == AdminRoute <==>
              !MatchesAny(path, AuthRoutes) && !MatchesAny(path, PublicAuthRoutes) && MatchesAny(path, AdminRoutes)
    ensures c == ProtectedRoute <==>
              !MatchesAny(path, AuthRoutes) && !MatchesAny(path, PublicAuthRoutes) &&
              !MatchesAny(path, AdminRoutes) && MatchesAny(path, ProtectedRoutes)
  {
    if MatchesAny(path, AuthRoutes) then LoginRoute
    else if MatchesAny(path, PublicAuthRoutes) then PublicAuthRoute
    else if MatchesAny(path, AdminRoutes) then AdminRoute
    else if MatchesAny(path, ProtectedRoutes) then ProtectedRoute
    else Unclassified
  }

  /** The routing cascade over a resolved context: public auth and unlisted
      paths are always forwarded, an anonymous request is redirected exactly on
      admin and protected paths, and every redirect goes to one of five pages. */
  function Route(path: string, locals: Locals): (r: Outcome)
    ensures Classify(path) == PublicAuthRoute || Classify(path) == Unclassified ==> r == Forward
    ensures locals.user.None? ==>
              (r.Redirect? <==> Classify(path) == AdminRoute || Classify(path) == ProtectedRoute)
    ensures r.Redirect? ==> r.target in {LoginPage, PendingPage, RejectedPage, AdminHome, Dashboard}
  {
    match Classify(path)
    case LoginRoute =>
      if locals.user.None? then Forward
      else if locals.isAdmin then Redirect(AdminHome)
      else if locals.approvalStatus == Some(Approved) then Redirect(Dashboard)
      else if locals.approvalStatus == Some(Pending) then Redirect(PendingPage)
      else if locals.approvalStatus == Some(Rejected) then Redirect(RejectedPage)
      else Forward
    case PublicAuthRoute => Forward
    case AdminRoute =>
      if locals.user.None? then Redirect(LoginPage)
      else if !locals.isAdmin then Redirect(Dashboard)
      else Forward
    case ProtectedRoute =>
      if locals.user.None? then Redirect(LoginPage)
      else if locals.isAdmin then Forward
      else if locals.approvalStatus == Some(Pending) then Redirect(PendingPage)
      else if locals.approvalStatus == Some(Rejected) then Redirect(RejectedPage)
      else if locals.approvalStatus != Some(Approved) then Redirect(LoginPage)
      else Forward
    case Unclassified => Forward
  }

  /** The whole gate as a function of the request and the directories: a
      bypassed path is forwarded, and a redirect goes to one of the five pages. */
  function Decide(path: string, user: Option<Id>, admins: AdminDirectory, users: UserDirectory): (r: Outcome)
    ensures Bypassed(path) ==> r == Forward
    ensures r.Redirect? ==> r.target in {LoginPage, PendingPage, RejectedPage, AdminHome, Dashboard}
  {
    if Bypassed(path) then Forward else Route(path, ContextOf(user, admins, users))
  }

  /** `onRequest`: the bypass check, context resolution, then the routing cascade. */
  method OnRequest(path: string, user: Option<Id>, admins: AdminDirectory, users: UserDirectory)
    returns (outcome: Outcome)
    ensures outcome == Decide(path, user, admins, users)
  {
    if StartsWith(path, "/api/") || StartsWith(path, "/_") {
      outcome := Forward;
      return;
    }
    var locals := ResolveContext(user, admins, users);
    outcome := Route(path, locals);
  }
}
