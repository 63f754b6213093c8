/** Row types of the Supabase schema (src/lib/supabase/types.ts): the approval
    status, the user, admin, approval-log and e-mail-verification records, and
    the Insert/Update shapes that say which columns may be written. */
module Types {

  datatype Option<T> = None | Some(value: T) {
    function GetOr(default: T): T {
      match this
      case Some(v) => v
      case None => default
    }
  }

  /** Primary keys, auth ids and e-mail addresses are opaque strings. */
  type Id = string

  /** Timestamps are opaque values; only their order is used (created_at sorting). */
  type Timestamp = int

  /** The three approval states; no other value exists. */
  datatype ApprovalStatus = Pending | Approved | Rejected

  /** The status as it is stored in the approval_status column. */
  function StatusName(s: ApprovalStatus): string {
    match s
    case Pending => "pending"
    case Approved => "approved"
    case Rejected => "rejected"
  }

  /** Reads a column value back as a status; the names are the only values that parse. */
  function ParseStatus(name: string): (r: Option<ApprovalStatus>)
    ensures forall s :: StatusName(s) == name <==> r == Some(s)
  {
    if name == "pending" then Some(Pending)
    else if name == "approved" then Some(Approved)
    else if name == "rejected" then Some(Rejected)
    else None
  }

  datatype UserLogin = UserLogin(
    id: Id,
    authId: Id,
    email: string,
    fullName: Option<string>,
    avatarUrl: Option<string>,
    approvalStatus: ApprovalStatus,
    approvedBy: Option<Id>,
    approvedAt: Option<Timestamp>,
    rejectionReason: Option<string>,
    emailVerified: bool,
    lastLoginAt: Option<Timestamp>,
    loginCount: int,
    createdAt: Timestamp,
    updatedAt: Timestamp)

  datatype AdminLogin = AdminLogin(
    id: Id,
    authId: Id,
    email: string,
    fullName: Option<string>,
    avatarUrl: Option<string>,
    isSuperAdmin: bool,
    lastLoginAt: Option<Timestamp>,
    createdAt: Timestamp)

  /** A row of approval_logs; its action is an approval status. */
  datatype ApprovalLog = ApprovalLog(
    id: Id,
    userId: Id,
    adminId: Id,
    action: ApprovalStatus,
    reason: Option<string>,
    createdAt: Timestamp)

  datatype EmailVerification = EmailVerification(
    id: Id,
    userId: Id,
    token: string,
    expiresAt: Timestamp,
    usedAt: Option<Timestamp>,
    createdAt: Timestamp)

  /** The Update shape of user_logins: every column except id and created_at may
      be written; None leaves a column as it is, Some(v) writes v (for nullable
      columns v is itself an Option, None meaning SQL null). */
  datatype UserLoginUpdate = UserLoginUpdate(
    authId: Option<Id>,
    email: Option<string>,
    fullName: Option<Option<string>>,
    avatarUrl: Option<Option<string>>,
    approvalStatus: Option<ApprovalStatus>,
    approvedBy: Option<Option<Id>>,
    approvedAt: Option<Option<Timestamp>>,
    rejectionReason: Option<Option<string>>,
    emailVerified: Option<bool>,
    lastLoginAt: Option<Option<Timestamp>>,
    loginCount: Option<int>,
    updatedAt: Option<Timestamp>)

  const NoUserLoginChange: UserLoginUpdate :=
    UserLoginUpdate(None, None, None, None, None, None, None, None, None, None, None, None)

  /** The columns an update of user_logins can never touch. */
  predicate SameIdentity(before: UserLogin, after: UserLogin) {
    before.id == after.id && before.createdAt == after.createdAt
  }

  /** Applies an update to a user_logins row: a written column takes the written
      value, an omitted one keeps its value, and id and created_at never change. */
  function ApplyUserLoginUpdate(row: UserLogin, u: UserLoginUpdate): (r: UserLogin)
    ensures SameIdentity(row, r)
    ensures u.authId.None? ==> r.authId == row.authId
    ensures u.authId.Some? ==> r.authId == u.authId.value
    ensures u.email.None? ==> r.email == row.email
    ensures u.email.Some? ==> r.email == u.email.value
    ensures u.fullName.None? ==> r.fullName == row.fullName
    ensures u.fullName.Some? ==> r.fullName == u.fullName.value
    ensures u.avatarUrl.None? ==> r.avatarUrl == row.avatarUrl
    ensures u.avatarUrl.Some? ==> r.avatarUrl == u.avatarUrl.value
    ensures u.approvalStatus.None? ==> r.approvalStatus == row.approvalStatus
    ensures u.approvalStatus.Some? ==> r.approvalStatus == u.approvalStatus.value
    ensures u.approvedBy.None? ==> r.approvedBy == row.approvedBy
    ensures u.approvedBy.Some? ==> r.approvedBy == u.approvedBy.value
    ensures u.approvedAt.None? ==> r.approvedAt == row.approvedAt
    ensures u.approvedAt.Some? ==> r.approvedAt == u.approvedAt.value
    ensures u.rejectionReason.None? ==> r.rejectionReason == row.rejectionReason
    ensures u.rejectionReason.Some? ==> r.rejectionReason == u.rejectionReason.value
    ensures u.emailVerified.None? ==> r.emailVerified == row.emailVerified
    ensures u.emailVerified.Some? ==> r.emailVerified == u.emailVerified.value
    ensures u.lastLoginAt.None? ==> r.lastLoginAt == row.lastLoginAt
    ensures u.lastLoginAt.Some? ==> r.lastLoginAt == u.lastLoginAt.value
    ensures u.loginCount.None? ==> r.loginCount == row.loginCount
    ensures u.loginCount.Some? ==> r.loginCount == u.loginCount.value
    ensures u.updatedAt.None? ==> r.updatedAt == row.updatedAt
    ensures u.updatedAt.Some? ==> r.updatedAt == u.updatedAt.value
  {
    row.(
      authId := u.authId.GetOr(row.authId),
      email := u.email.GetOr(row.email),
      fullName := u.fullName.GetOr(row.fullName),
      avatarUrl := u.avatarUrl.GetOr(row.avatarUrl),
      approvalStatus := u.approvalStatus.GetOr(row.approvalStatus),
      approvedBy := u.approvedBy.GetOr(row.approvedBy),
      approvedAt := u.approvedAt.GetOr(row.approvedAt),
      rejectionReason := u.rejectionReason.GetOr(row.rejectionReason),
      emailVerified := u.emailVerified.GetOr(row.emailVerified),
      lastLoginAt := u.lastLoginAt.GetOr(row.lastLoginAt),
      loginCount := u.loginCount.GetOr(row.loginCount),
      updatedAt := u.updatedAt.GetOr(row.updatedAt))
  }

  /** An update that writes no column leaves the row as it was. */
  lemma EmptyUserLoginUpdateIsIdentity(row: UserLogin)
    ensures ApplyUserLoginUpdate(row, NoUserLoginChange) == row
  {
  }

  /** The Update shape of email_verifications: only used_at may be written. */
  datatype EmailVerificationUpdate = EmailVerificationUpdate(usedAt: Option<Option<Timestamp>>)

  function ApplyEmailVerificationUpdate(row: EmailVerification, u: EmailVerificationUpdate): (r: EmailVerification)
    ensures r.id == row.id && r.userId == row.userId && r.token == row.token
    ensures r.expiresAt == row.expiresAt && r.createdAt == row.createdAt
    ensures u.usedAt.Some? ==> r.usedAt == u.usedAt.value
    ensures u.usedAt.None? ==> r == row
  {
    match u.usedAt
    case None => row
    case Some(v) => row.(usedAt := v)
  }

  /** The Insert shape of approval_logs (id and created_at are filled in by the database). */
  datatype ApprovalLogInsert = ApprovalLogInsert(
    userId: Id,
    adminId: Id,
    action: ApprovalStatus,
    reason: Option<string>)

  /** The stored row for an insert, given the id and creation time the database assigns. */
  function InsertedLog(ins: ApprovalLogInsert, id: Id, createdAt: Timestamp): ApprovalLog {
    ApprovalLog(id, ins.userId, ins.adminId, ins.action, ins.reason, createdAt)
  }

  /** approval_logs has no Update shape: a later log extends an earlier one and
      never rewrites a row it already holds. */
  predicate AppendOnly(before: seq<ApprovalLog>, after: seq<ApprovalLog>) {
    |before| <= |after| && after[..|before|] == before
  }
}
