# Sanastro access control, modelled in Dafny

Sanastro gates its pages behind an admin-approval sign-up flow. This project models the part of it that decides who may see what:

- **The request gate** (`src/middleware.ts`). For each navigation request it resolves a context from the session identity and two directories (`admin_logins`, `user_logins`): is there a user, is it an admin, what is its approval status. It then classifies the path by prefix against four static route tables, tried in the order login, public auth, admin, protected. The outcome is either forward or redirect. API routes (`/api/`) and static assets (`/_`) bypass the gate.
- **The approve and reject endpoints** (`approve-user.ts`, `reject-user.ts`). Each runs an ordered guard chain: 401 without a session, 403 without an admin record, 500 on an unreadable body, 400 without a user id. It then updates one `user_logins` row in place and appends one row to `approval_logs`. It sends a notification when the row has an e-mail address.
- **The listing endpoint** (`users.ts`). It runs the same guards, then applies the default parameters, the status filter, newest-first ordering, the page window and the page count.
- **The row types** (`src/lib/supabase/types.ts`). These are the three-valued approval status, the row records, and the update shapes. In `user_logins` every column except `id` and `created_at` may change. In `email_verifications` only `used_at` may change. `approval_logs` has no update at all, so it is append-only.

Files:

- `types.dfy`: module `Types`.
- `middleware.dfy`: module `Middleware`, the gate. `ResolveContext` builds the locals step by step, as the source does, and is proved equal to the function `ContextOf`. `Route` is the routing cascade and `Decide` the whole gate.
- `gate_properties.dfy`: module `GateProperties`, the whole-table properties of the gate.
- `admin_api.dfy`: module `AdminApi`, the shared guard and reply type.
- `approvals.dfy`: module `Approvals`. Class `ApprovalStore` holds `user_logins` as a map keyed by id and `approval_logs` as a sequence; its invariant `Valid` says every row is stored under its own id. Sent notifications are a ghost event list.
- `user_listing.dfy`: module `UserListing`.

Behaviour of the code that the model keeps:

- The result of the `approval_logs` insert is never inspected. If the insert fails, the endpoint still answers 200, and the model then appends no log row (`logInsertFails`).
- An update whose `.single()` finds no row with the given id is an error (500), and nothing changes.
- A signed-in user who has no row in either directory has a null status. That user is sent from protected pages to the login page, and the login page is then shown (`UnknownUserBouncedToLogin`).
- The gate does not purge session credentials when the refresh token is invalid. `userError` at src/middleware.ts:20 is never read, so an invalid token simply yields no identity.

## Model

| member | source | states |
|---|---|---|
| `Types.ParseStatus` | src/lib/supabase/types.ts:1 | a column value names a status iff it is one of the three names, so exactly three statuses exist |
| `Types.ApplyUserLoginUpdate` | src/lib/supabase/types.ts:52-56 | an update of user_logins never changes `id` or `created_at`; each of the twelve writable columns takes the written value when the update writes it and keeps its value otherwise |
| `Types.EmptyUserLoginUpdateIsIdentity` | src/lib/supabase/types.ts:55 | an update writing no column leaves the row unchanged |
| `Types.ApplyEmailVerificationUpdate` | src/lib/supabase/types.ts:67-71 | an update of email_verifications can change only `used_at` |
| `Middleware.MatchesAny` | src/middleware.ts:55 | `routes.some(startsWith)` holds iff some route in the table is a prefix of the path |
| `Middleware.ContextOf` | src/middleware.ts:22-52 | no user gives not-admin and null status; an admin record gives admin with status approved; otherwise the status is the user directory's, or null when there is no row |
| `Middleware.ResolveContext` | src/middleware.ts:22-52 | the step-by-step initialise-then-overwrite of the locals yields exactly `ContextOf` |
| `Middleware.AdminShortCircuit` | src/middleware.ts:37-51 | when an admin record exists, the user directory has no effect on the context |
| `Middleware.Classify` | src/middleware.ts:4-7 | the route class is the first of login, public auth, admin, protected whose table has a prefix of the path |
| `Middleware.Route` | src/middleware.ts:54-109 | public auth and unlisted paths are forwarded; without a user, exactly admin and protected paths are redirected; every redirect goes to one of the five fixed pages |
| `Middleware.Decide` | src/middleware.ts:9-110 | a path under `/api/` or `/_` is forwarded, and every redirect of the gate goes to one of the five fixed pages |
| `Middleware.OnRequest` | src/middleware.ts:9-110 | the handler's outcome is the gate function `Decide` |
| `GateProperties.BypassIgnoresIdentity` | src/middleware.ts:12-15 | paths under `/api/` or `/_` are forwarded, whatever the identity and directories |
| `GateProperties.PublicAuthAlwaysReachable` | src/middleware.ts:73-76 | pending, rejected, callback and logout pages are forwarded for every identity and directory contents |
| `GateProperties.AnonymousTable` | src/middleware.ts:54-109 | without a user, admin and protected routes redirect to `/auth/login` and every other path is forwarded |
| `GateProperties.AdminTable` | src/middleware.ts:54-109 | an admin is redirected from login to `/admin` and forwarded everywhere else, whatever the user directory says |
| `GateProperties.NonAdminTable` | src/middleware.ts:54-109 | a non-admin: login goes to dashboard, pending or rejected page by status, or is forwarded when the status is null; admin routes go to `/dashboard`; protected routes are forwarded only when approved, and otherwise go to the pending, rejected or login page |
| `GateProperties.RedirectTargets` | src/middleware.ts:54-109 | every redirect goes to one of `/auth/login`, `/auth/pending`, `/auth/rejected`, `/admin`, `/dashboard` |
| `GateProperties.RedirectTargetsByContext` | src/middleware.ts:54-109 | a first redirect goes to login for an anonymous request, to `/admin` for an admin, and for a non-admin to `/dashboard` or to the page its status names (login for a null status) |
| `GateProperties.RedirectTargetsClassified` | src/middleware.ts:4-7 | those five pages fall in the login, public auth, public auth, admin and protected classes, and none bypasses the gate |
| `GateProperties.LoginClassOutcome` | src/middleware.ts:55-71 | on a login-class path: anonymous is forwarded, an admin goes to `/admin`, a non-admin goes where its status sends it (forwarded when null) |
| `GateProperties.AdminClassOutcome` | src/middleware.ts:79-87 | on an admin-class path: anonymous goes to login, a non-admin to `/dashboard`, an admin is forwarded |
| `GateProperties.ProtectedClassOutcome` | src/middleware.ts:90-107 | on a protected-class path: anonymous goes to login, admins and approved users are forwarded, a null status goes to login, pending and rejected users to their pages |
| `GateProperties.TargetOutcomes` | src/middleware.ts:54-109 | the outcome of each redirect target, for a given context |
| `GateProperties.NoRedirectLoop` | src/middleware.ts:54-109 | following a redirect with the same identity reaches a forwarded page within at most two further hops |
| `GateProperties.PrefixClassification` | src/middleware.ts:4-7 | matching is by prefix (`/administrator` is an admin route, `/dashboard/x` a protected one), and a path in no table is forwarded |
| `GateProperties.UnknownUserBouncedToLogin` | src/middleware.ts:90-105 | a user with no record in either directory is sent from `/birth-data` to login, and the login page is then forwarded |
| `AdminApi.AdminGuard` | src/pages/api/admin/approve-user.ts:10-31 | 401 iff there is no session; otherwise 403 iff the session's user has no admin_logins row; otherwise it admits that admin |
| `AdminApi.OrNull` | src/pages/api/admin/reject-user.ts:48 | an absent or empty reason becomes null, and any other reason is kept |
| `Approvals.ApprovePatch` | src/pages/api/admin/approve-user.ts:46-51 | the approve update writes status approved, `approved_by` the admin's id, `approved_at` the clock and a null rejection reason, and no other column |
| `Approvals.RejectPatch` | src/pages/api/admin/reject-user.ts:46-51 | the reject update writes status rejected, the reason or null, null `approved_by` and null `approved_at`, and no other column |
| `Approvals.ApprovedRow` | src/pages/api/admin/approve-user.ts:44-54 | from any prior status: approved, `approved_by` is the admin, `approved_at` is the given time, no rejection reason, and every other column unchanged |
| `Approvals.RejectedRow` | src/pages/api/admin/reject-user.ts:44-54 | from any prior status: rejected, approval columns cleared, the reason kept unless absent or empty, and every other column unchanged |
| `Approvals.ApproveIdempotent` | src/pages/api/admin/approve-user.ts:44-54 | approving twice by the same admin equals one approval at the later time |
| `Approvals.RejectAfterApprove` | src/pages/api/admin/reject-user.ts:44-54 | rejecting after an approval leaves the same row as rejecting directly, with no approval columns set |
| `Approvals.ApprovalStore.ApproveUser` | src/pages/api/admin/approve-user.ts:5-89 | guard order 401, 403, 500 (body), 400, 500 (update). Every error leaves rows, log and e-mails unchanged. On success only the target row changes, to `ApprovedRow`; one `approved` log row of the insert's shape (`InsertedLog`, stamped with the database's id and creation time) is appended unless its insert fails; the approval e-mail is sent iff the row has an address; the log stays append-only and every row stays under its own id |
| `Approvals.ApprovalStore.RejectUser` | src/pages/api/admin/reject-user.ts:5-90 | the same guard order and no-change-on-error. On success only the target row changes, to `RejectedRow`; one `rejected` log row of the insert's shape (`InsertedLog`) carrying the normalised reason is appended unless its insert fails; the rejection e-mail, carrying the caller's reason, is sent iff the row has an address |
| `Approvals.ApproveTwice` | src/pages/api/admin/approve-user.ts:44-71 | two successful approvals leave the row as one approval at the later time would, and add two log rows |
| `UserListing.FilterOf` | src/pages/api/admin/users.ts:33 | an absent or empty filter means `all` |
| `UserListing.MatchesFilter` | src/pages/api/admin/users.ts:45-47 | a row matches `all`, or a filter that reads back (`ParseStatus`) as the row's own status |
| `UserListing.FilterRows` | src/pages/api/admin/users.ts:45-47 | `all` selects every row; any other filter keeps exactly the rows (with multiplicity) whose status name equals it |
| `UserListing.UnknownFilterSelectsNothing` | src/pages/api/admin/users.ts:45-47 | a filter that is neither `all` nor a status name selects no row |
| `UserListing.OrderByCreatedAtDesc` | src/pages/api/admin/users.ts:42 | the result is a permutation of the rows, ordered by `created_at` descending |
| `UserListing.InsertByCreatedAt` | src/pages/api/admin/users.ts:42 | inserting into a newest-first list keeps it newest first and adds exactly that row |
| `UserListing.Offset` | src/pages/api/admin/users.ts:36 | the offset is 0 exactly on page 1, and at least one position per earlier page |
| `UserListing.RangeOf` | src/pages/api/admin/users.ts:43 | `.range(from, to)` yields exactly the rows at positions from..to inclusive that exist, in order, and its length is the number of such positions |
| `UserListing.PageRows` | src/pages/api/admin/users.ts:36-43 | a page holds at most `limit` rows |
| `UserListing.CeilDiv` | src/pages/api/admin/users.ts:65 | `Math.ceil(count / limit)`: the least r with count <= r * limit |
| `UserListing.ConsecutivePagesAdjacent` | src/pages/api/admin/users.ts:36 | page 1 starts at position 0, and page p + 1 starts exactly `limit` positions after page p, so consecutive windows are adjacent and disjoint |
| `UserListing.PageOfSelection` | src/pages/api/admin/users.ts:39-47 | a page is newest first and holds only rows of the table that match the filter |
| `UserListing.ListUsers` | src/pages/api/admin/users.ts:5-78 | 401 without a session and 403 for a non-admin, before any listing. Otherwise 500 iff the query fails. On success it echoes page and limit (defaults 1 and 20), reports the filtered count and its page count, and returns that page of the filtered rows, newest first |
| `UserListing.PageIsSlice` | src/pages/api/admin/users.ts:36-43 | page k is the slice from position (k - 1) * limit to k * limit, cut at the end of the list |
| `UserListing.FirstPagesArePrefix` | src/pages/api/admin/users.ts:36-43 | pages 1 to k together hold exactly the first k * limit rows, in order |
| `UserListing.TotalPagesCoverList` | src/pages/api/admin/users.ts:65 | pages 1 to totalPages together hold every selected row exactly once, in order |
| `UserListing.PageNonEmptyIffWithinTotal` | src/pages/api/admin/users.ts:65 | a page has rows iff its number is at most totalPages |

## Left out

- Supabase client construction, cookies, `getUser` and `getSession` are not modelled (`src/lib/supabase/server.ts` is not part of this model). The identity is a parameter (`Option<Id>`), and the tables are maps and sequences.
- The directory lookups use `.eq('auth_id', …).single()`. A lookup that errors is modelled as a missing key. Several rows with one auth id, which `.single()` also turns into "not found", are not modelled, because the directories are maps.
- `context.locals.session` is not modelled: it is the identity again, wrapped.
- The e-mail templates and the Resend calls are not modelled (`src/lib/email/resend.ts` is not part of this model). The mail functions catch their own errors, so a send is only a ghost `Email` event.
- `request.json()` throwing, and the endpoints' catch-all 500, are one outcome: an unreadable body (`None`) after the two auth checks gives 500. Error message texts are not modelled.
- Database errors are boolean parameters (`updateFails`, `logInsertFails`, `queryFails`). A failed update is taken to change nothing.
- The database assigns the id and creation time of a log row, and the model takes both as parameters (`logId`, `loggedAt`). `approved_at` comes from the server's clock, which is a separate parameter (`now`). Timestamps are integers, used only for their order.
- The request bodies are modelled with string-valued fields (`Option<string>`). JSON also allows other values for `userId` and `reason`, such as `0`, `false` or a number; the endpoints' `!userId` and `reason || null` treat those by JavaScript truthiness, and the model does not express them.
- A database trigger that might set `updated_at` is not visible in the source and is not modelled. The row keeps its `updated_at`.
- `UserListing.ListUsers`: `parseInt` is not modelled. The parameters arrive as integers, and the function requires page >= 1 and limit >= 1, because NaN, 0 and negative values are JavaScript edge cases (`Math.ceil(x / 0)`).
- `UserListing.ListUsers`: a page past the end is an empty list. The database may instead report a range error, which then becomes a 500.
- `UserListing.ListUsers`: the count is always present on success, so `count || 0` is not exercised.
- `UserListing.OrderByCreatedAtDesc`: the database leaves the order of rows with equal `created_at` unspecified. The model fixes one such order, and its contract states only the ordering and the permutation.
- The admin_logins Update shape is not modelled, because none of these endpoints writes admin_logins.
- `src/pages/api/places/*`, `docs/design/tailwind.config.js` and `src/env.d.ts` are not modelled: they are an external geocoding proxy, a constant stub, styling data and type declarations.
