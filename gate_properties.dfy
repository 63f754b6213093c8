/** Whole-table properties of the request gate in module Middleware. */
module GateProperties {
  import opened Types
  import opened Middleware

  /** Two prefixes that differ at a position both cover cannot both start a path. */
  lemma PrefixesExclude(path: string, p: string, q: string, k: nat)
    requires k < |p| && k < |q| && p[k] != q[k]
    requires StartsWith(path, p)
    ensures !StartsWith(path, q)
  {
  }

  /** The paths the gate itself redirects to, and their classes. */
  lemma {:induction false} RedirectTargetsClassified()
    ensures Classify(LoginPage) == LoginRoute && !Bypassed(LoginPage)
    ensures Classify(PendingPage) == PublicAuthRoute && !Bypassed(PendingPage)
    ensures Classify(RejectedPage) == PublicAuthRoute && !Bypassed(RejectedPage)
    ensures Classify(AdminHome) == AdminRoute && !Bypassed(AdminHome)
    ensures Classify(Dashboard) == ProtectedRoute && !Bypassed(Dashboard)
  {
    assert StartsWith(LoginPage, AuthRoutes[0]);
    assert StartsWith(PendingPage, PublicAuthRoutes[0]);
    assert StartsWith(RejectedPage, PublicAuthRoutes[1]);
    assert StartsWith(AdminHome, AdminRoutes[0]);
    assert StartsWith(Dashboard, ProtectedRoutes[0]);
    PrefixesExclude(PendingPage, PendingPage, LoginPage, 6);
    PrefixesExclude(RejectedPage, RejectedPage, LoginPage, 6);
    PrefixesExclude(AdminHome, AdminHome, LoginPage, 2);
    PrefixesExclude(AdminHome, AdminHome, PublicAuthRoutes[0], 2);
    PrefixesExclude(AdminHome, AdminHome, PublicAuthRoutes[1], 2);
    PrefixesExclude(AdminHome, AdminHome, PublicAuthRoutes[2], 2);
    PrefixesExclude(AdminHome, AdminHome, PublicAuthRoutes[3], 2);
    PrefixesExclude(Dashboard, Dashboard, LoginPage, 1);
    PrefixesExclude(Dashboard, Dashboard, PublicAuthRoutes[0], 1);
    PrefixesExclude(Dashboard, Dashboard, PublicAuthRoutes[1], 1);
    PrefixesExclude(Dashboard, Dashboard, PublicAuthRoutes[2], 1);
    PrefixesExclude(Dashboard, Dashboard, PublicAuthRoutes[3], 1);
    PrefixesExclude(Dashboard, Dashboard, AdminRoutes[0], 1);
  }

  /** API routes and static assets are forwarded whatever the identity and directories. */
  lemma BypassIgnoresIdentity(path: string, user1: Option<Id>, admins1: AdminDirectory, users1: UserDirectory,
                              user2: Option<Id>, admins2: AdminDirectory, users2: UserDirectory)
    requires StartsWith(path, "/api/") || StartsWith(path, "/_")
    ensures Decide(path, user1, admins1, users1) == Forward
    ensures Decide(path, user1, admins1, users1) == Decide(path, user2, admins2, users2)
  {
  }

  /** A path under /auth/ never starts with /api/ or /_. */
  lemma AuthPathNotBypassed(path: string)
    requires StartsWith(path, "/auth/")
    ensures !Bypassed(path)
  {
    PrefixesExclude(path, "/auth/", "/api/", 2);
    PrefixesExclude(path, "/auth/", "/_", 1);
  }

  /** The pending, rejected, callback and logout pages are reachable from every context. */
  lemma {:induction false} PublicAuthAlwaysReachable(path: string, user: Option<Id>, admins: AdminDirectory, users: UserDirectory)
    requires MatchesAny(path, PublicAuthRoutes)
    ensures Decide(path, user, admins, users) == Forward
  {
    var i :| 0 <= i < |PublicAuthRoutes| && StartsWith(path, PublicAuthRoutes[i]);
    var p := PublicAuthRoutes[i];
    assert StartsWith(path, "/auth/") by {
      assert path[..6] == path[..|p|][..6] == p[..6] == "/auth/";
    }
    AuthPathNotBypassed(path);
    if i == 3 {
      PrefixesExclude(path, p, LoginPage, 9);
    } else {
      PrefixesExclude(path, p, LoginPage, 6);
    }
    assert !MatchesAny(path, AuthRoutes);
  }

  /** Without an identity: admin and protected routes go to login, everything else is forwarded. */
  lemma AnonymousTable(path: string, admins: AdminDirectory, users: UserDirectory)
    requires !Bypassed(path)
    ensures Decide(path, None, admins, users) ==
              if Classify(path) in {AdminRoute, ProtectedRoute} then Redirect(LoginPage) else Forward
  {
  }

  /** An admin is sent from login to the admin home and forwarded everywhere else,
      whatever the user directory says about it. */
  lemma AdminTable(path: string, u: Id, admins: AdminDirectory, users: UserDirectory)
    requires !Bypassed(path) && u in admins
    ensures Decide(path, Some(u), admins, users) ==
              if Classify(path) == LoginRoute then Redirect(AdminHome) else Forward
  {
  }

  /** Where a signed-in non-admin lands from the login page. */
  function HomeFor(status: Option<ApprovalStatus>): Outcome {
    match status
    case Some(Approved) => Redirect(Dashboard)
    case Some(Pending) => Redirect(PendingPage)
    case Some(Rejected) => Redirect(RejectedPage)
    case None => Forward
  }

  /** A signed-in non-admin, by route class and by the user directory's status. */
  lemma NonAdminTable(path: string, u: Id, admins: AdminDirectory, users: UserDirectory)
    requires !Bypassed(path) && u !in admins
    ensures var status := if u in users then Some(users[u]) else None;
            var outcome := Decide(path, Some(u), admins, users);
            match Classify(path)
            case LoginRoute => outcome == HomeFor(status)
            case PublicAuthRoute => outcome == Forward
            case AdminRoute => outcome == Redirect(Dashboard)
            case ProtectedRoute => outcome == (if status == Some(Approved) then Forward
                                               else if status.None? then Redirect(LoginPage)
                                               else HomeFor(status))
            case Unclassified => outcome == Forward
  {
  }

  /** Every redirect the gate issues goes to one of its five fixed pages. */
  lemma RedirectTargets(path: string, user: Option<Id>, admins: AdminDirectory, users: UserDirectory)
    ensures Decide(path, user, admins, users).Redirect? ==>
              Decide(path, user, admins, users).target in {LoginPage, PendingPage, RejectedPage, AdminHome, Dashboard}
  {
  }

  /** What the gate answers on each of its own redirect targets, for a given context. */
  lemma {:induction false} TargetOutcomes(user: Option<Id>, admins: AdminDirectory, users: UserDirectory)
    ensures var ctx := ContextOf(user, admins, users);
            && Decide(PendingPage, user, admins, users) == Forward
            && Decide(RejectedPage, user, admins, users) == Forward
            && Decide(LoginPage, user, admins, users) ==
                 (if user.None? then Forward else if ctx.isAdmin then Redirect(AdminHome) else HomeFor(ctx.approvalStatus))
            && Decide(AdminHome, user, admins, users) ==
                 (if user.None? then Redirect(LoginPage) else if !ctx.isAdmin then Redirect(Dashboard) else Forward)
            && Decide(Dashboard, user, admins, users) ==
                 (if user.None? then Redirect(LoginPage)
                  else if ctx.isAdmin || ctx.approvalStatus == Some(Approved) then Forward
                  else if ctx.approvalStatus.None? then Redirect(LoginPage)
                  else HomeFor(ctx.approvalStatus))
  {
    RedirectTargetsClassified();
    LoginClassOutcome(LoginPage, user, admins, users);
    AdminClassOutcome(AdminHome, user, admins, users);
    ProtectedClassOutcome(Dashboard, user, admins, users);
  }

  /** The outcome on a path of the login class, by context. */
  lemma LoginClassOutcome(path: string, user: Option<Id>, admins: AdminDirectory, users: UserDirectory)
    requires !Bypassed(path) && Classify(path) == LoginRoute
    ensures var ctx := ContextOf(user, admins, users);
            Decide(path, user, admins, users) ==
              (if user.None? then Forward else if ctx.isAdmin then Redirect(AdminHome) else HomeFor(ctx.approvalStatus))
  {
  }

  /** The outcome on a path of the admin class, by context. */
  lemma AdminClassOutcome(path: string, user: Option<Id>, admins: AdminDirectory, users: UserDirectory)
    requires !Bypassed(path) && Classify(path) == AdminRoute
    ensures var ctx := ContextOf(user, admins, users);
            Decide(path, user, admins, users) ==
              (if user.None? then Redirect(LoginPage) else if !ctx.isAdmin then Redirect(Dashboard) else Forward)
  {
  }

  /** The outcome on a path of the protected class, by context. */
  lemma ProtectedClassOutcome(path: string, user: Option<Id>, admins: AdminDirectory, users: UserDirectory)
    requires !Bypassed(path) && Classify(path) == ProtectedRoute
    ensures var ctx := ContextOf(user, admins, users);
            Decide(path, user, admins, users) ==
              (if user.None? then Redirect(LoginPage)
               else if ctx.isAdmin || ctx.approvalStatus == Some(Approved) then Forward
               else if ctx.approvalStatus.None? then Redirect(LoginPage)
               else HomeFor(ctx.approvalStatus))
  {
  }

  /** The first redirect, by context: an anonymous request goes only to login, an
      admin only to the admin home, an approved non-admin only to the dashboard. */
  lemma RedirectTargetsByContext(path: string, user: Option<Id>, admins: AdminDirectory, users: UserDirectory)
    ensures var first := Decide(path, user, admins, users);
            var ctx := ContextOf(user, admins, users);
            first.Redirect? ==>
              && (user.None? ==> first.target == LoginPage)
              && (ctx.isAdmin ==> first.target == AdminHome)
              && (user.Some? && !ctx.isAdmin ==>
                    first.target == Dashboard ||
                    (ctx.approvalStatus == Some(Pending) && first.target == PendingPage) ||
                    (ctx.approvalStatus == Some(Rejected) && first.target == RejectedPage) ||
                    (ctx.approvalStatus.None? && first.target == LoginPage))
  {
    if !Bypassed(path) {
      match Classify(path)
      case LoginRoute =>
      case PublicAuthRoute =>
      case AdminRoute =>
      case ProtectedRoute =>
        match ContextOf(user, admins, users).approvalStatus {
          case None =>
          case Some(Approved) =>
          case Some(Pending) =>
          case Some(Rejected) =>
        }
      case Unclassified =>
    }
  }

  /** Requesting a redirect target again, with the same identity and directories,
      reaches a forwarded page within at most two further hops. */
  lemma {:induction false} NoRedirectLoop(path: string, user: Option<Id>, admins: AdminDirectory, users: UserDirectory)
    ensures var first := Decide(path, user, admins, users);
            first.Redirect? ==>
              var second := Decide(first.target, user, admins, users);
              second == Forward ||
              (second.Redirect? && Decide(second.target, user, admins, users) == Forward)
  {
    RedirectTargetsByContext(path, user, admins, users);
    TargetOutcomes(user, admins, users);
  }

  /** Matching is by prefix: /administrator is an admin route, /dashboard/x a protected
      one, and a path in no table is forwarded. */
  lemma {:induction false} PrefixClassification(user: Option<Id>, admins: AdminDirectory, users: UserDirectory)
    ensures Classify("/administrator") == AdminRoute
    ensures Classify("/dashboard/x") == ProtectedRoute
    ensures Decide("/", user, admins, users) == Forward
  {
    assert StartsWith("/administrator", AdminRoutes[0]);
    assert StartsWith("/dashboard/x", ProtectedRoutes[0]);
    PrefixesExclude("/administrator", "/administrator", LoginPage, 2);
    PrefixesExclude("/administrator", "/administrator", PublicAuthRoutes[0], 2);
    PrefixesExclude("/administrator", "/administrator", PublicAuthRoutes[1], 2);
    PrefixesExclude("/administrator", "/administrator", PublicAuthRoutes[2], 2);
    PrefixesExclude("/administrator", "/administrator", PublicAuthRoutes[3], 2);
    PrefixesExclude("/dashboard/x", "/dashboard/x", LoginPage, 1);
    PrefixesExclude("/dashboard/x", "/dashboard/x", PublicAuthRoutes[0], 1);
    PrefixesExclude("/dashboard/x", "/dashboard/x", PublicAuthRoutes[1], 1);
    PrefixesExclude("/dashboard/x", "/dashboard/x", PublicAuthRoutes[2], 1);
    PrefixesExclude("/dashboard/x", "/dashboard/x", PublicAuthRoutes[3], 1);
    PrefixesExclude("/dashboard/x", "/dashboard/x", AdminRoutes[0], 1);
  }

  /** A signed-in user with no record in either directory is sent from
      /birth-data to login, and is then shown the login page. */
  lemma {:induction false} UnknownUserBouncedToLogin(u: Id, admins: AdminDirectory, users: UserDirectory)
    requires u !in admins && u !in users
    ensures Decide("/birth-data", Some(u), admins, users) == Redirect(LoginPage)
    ensures Decide(LoginPage, Some(u), admins, users) == Forward
  {
    RedirectTargetsClassified();
    LoginClassOutcome(LoginPage, Some(u), admins, users);
    assert StartsWith("/birth-data", ProtectedRoutes[4]);
    PrefixesExclude("/birth-data", "/birth-data", LoginPage, 1);
    PrefixesExclude("/birth-data", "/birth-data", PublicAuthRoutes[0], 1);
    PrefixesExclude("/birth-data", "/birth-data", PublicAuthRoutes[1], 1);
    PrefixesExclude("/birth-data", "/birth-data", PublicAuthRoutes[2], 1);
    PrefixesExclude("/birth-data", "/birth-data", PublicAuthRoutes[3], 1);
    PrefixesExclude("/birth-data", "/birth-data", AdminRoutes[0], 1);
    PrefixesExclude("/birth-data", "/birth-data", "/api/", 1);
    PrefixesExclude("/birth-data", "/birth-data", "/_", 1);
    ProtectedClassOutcome("/birth-data", Some(u), admins, users);
  }
}
