/** The approve and reject endpoints (src/pages/api/admin/approve-user.ts and
    reject-user.ts) over the tables they write: user_logins, updated in place,
    and approval_logs, appended to. Notification e-mails are recorded as ghost
    events; the mail functions catch their own failures, so a send never
    changes the reply. */
module Approvals {
  import opened Types
  import opened AdminApi

  /** The parsed JSON bodies; an unparsable body is `None` at the call site. */
  datatype ApproveBody = ApproveBody(userId: Option<string>)
  datatype RejectBody = RejectBody(userId: Option<string>, reason: Option<string>)

  /** A notification handed to the mail service: recipient, display name and,
      for a rejection, the reason exactly as the caller sent it. */
  datatype Email =
    | ApprovalEmail(to: string, name: Option<string>)
    | RejectionEmail(to: string, name: Option<string>, reason: Option<string>)

  /** The two rows agree on every column other than the four approval columns. */
  predicate OnlyApprovalColumnsDiffer(before: UserLogin, after: UserLogin) {
    before.(approvalStatus := after.approvalStatus, approvedBy := after.approvedBy,
            approvedAt := after.approvedAt, rejectionReason := after.rejectionReason) == after
  }

  /** The update approve-user sends to user_logins. */
  function ApprovePatch(adminId: Id, now: Timestamp): (p: UserLoginUpdate)
    ensures p.approvalStatus == Some(Approved)
    ensures p.approvedBy == Some(Some(adminId)) && p.approvedAt == Some(Some(now))
    ensures p.rejectionReason == Some(None)
    ensures p.(approvalStatus := None, approvedBy := None, approvedAt := None, rejectionReason := None) == NoUserLoginChange
  {
    NoUserLoginChange.(approvalStatus := Some(Approved), approvedBy := Some(Some(adminId)),
                       approvedAt := Some(Some(now)), rejectionReason := Some(None))
  }

  /** The update reject-user sends to user_logins. */
  function RejectPatch(reason: Option<string>): (p: UserLoginUpdate)
    ensures p.approvalStatus == Some(Rejected)
    ensures p.approvedBy == Some(None) && p.approvedAt == Some(None)
    ensures p.rejectionReason == Some(OrNull(reason))
    ensures p.(approvalStatus := None, approvedBy := None, approvedAt := None, rejectionReason := None) == NoUserLoginChange
  {
    NoUserLoginChange.(approvalStatus := Some(Rejected), rejectionReason := Some(OrNull(reason)),
                       approvedBy := Some(None), approvedAt := Some(None))
  }

  /** A row after approval, whatever its prior status. */
  function ApprovedRow(row: UserLogin, adminId: Id, now: Timestamp): (r: UserLogin)
    ensures r.approvalStatus == Approved
    ensures r.approvedBy == Some(adminId) && r.approvedAt == Some(now)
    ensures r.rejectionReason.None?
    ensures OnlyApprovalColumnsDiffer(row, r)
  {
    ApplyUserLoginUpdate(row, ApprovePatch(adminId, now))
  }

  /** A row after rejection, whatever its prior status: the reason is kept
      unless absent or empty, and every approval column is cleared. */
  function RejectedRow(row: UserLogin, reason: Option<string>): (r: UserLogin)
    ensures r.approvalStatus == Rejected
    ensures r.approvedBy.None? && r.approvedAt.None?
    ensures r.rejectionReason.None? <==> Blank(reason)
    ensures r.rejectionReason.Some? ==> r.rejectionReason == reason
    ensures OnlyApprovalColumnsDiffer(row, r)
  {
    ApplyUserLoginUpdate(row, RejectPatch(reason))
  }

  /** Approving an approved row again changes only its approval time. */
  lemma ApproveIdempotent(row: UserLogin, adminId: Id, t1: Timestamp, t2: Timestamp)
    ensures ApprovedRow(ApprovedRow(row, adminId, t1), adminId, t2) == ApprovedRow(row, adminId, t2)
    ensures ApprovedRow(ApprovedRow(row, adminId, t1), adminId, t2) == ApprovedRow(row, adminId, t1).(approvedAt := Some(t2))
  {
  }

  /** Rejecting an approved row leaves no approval column set. */
  lemma RejectAfterApprove(row: UserLogin, adminId: Id, now: Timestamp, reason: Option<string>)
    ensures RejectedRow(ApprovedRow(row, adminId, now), reason) == RejectedRow(row, reason)
  {
  }

  class ApprovalStore {
    /** user_logins, keyed by primary key. */
    var userLogins: map<Id, UserLogin>
    /** approval_logs, in insertion order. */
    var approvalLogs: seq<ApprovalLog>
    /** admin_logins, keyed by auth id; these endpoints only read it. */
    const adminLogins: map<Id, AdminLogin>
    /** The notifications sent, in order. */
    ghost var sentEmails: seq<Email>

    /** Every user_logins row is stored under its own primary key, the column
        the endpoints select on with `.eq('id', userId)`. */
    predicate Valid()
      reads this
    {
      forall k :: k in userLogins ==> userLogins[k].id == k
    }

    constructor (users: map<Id, UserLogin>, admins: map<Id, AdminLogin>, logs: seq<ApprovalLog>)
      requires forall k :: k in users ==> users[k].id == k
      ensures Valid()
      ensures userLogins == users && adminLogins == admins && approvalLogs == logs && sentEmails == []
    {
      userLogins := users;
      adminLogins := admins;
      approvalLogs := logs;
      sentEmails := [];
    }

    /** POST /api/admin/approve-user. `now` is the server's clock, written to
        approved_at; `logId` and `loggedAt` are the id and created_at the database
        gives the new log row; `updateFails` stands for a database error on the
        update and `logInsertFails` for one on the log insert, whose result the
        endpoint never inspects. */
    method ApproveUser(session: Option<Id>, body: Option<ApproveBody>, now: Timestamp, logId: Id,
                       loggedAt: Timestamp, updateFails: bool, logInsertFails: bool)
      returns (reply: Reply<UserLogin>)
      requires Valid()
      modifies this
      ensures Valid()
      ensures AppendOnly(old(approvalLogs), approvalLogs)
      ensures reply.Failure? ==>
                userLogins == old(userLogins) && approvalLogs == old(approvalLogs) && sentEmails == old(sentEmails)
      ensures session.None? ==> reply == Failure(Unauthorized)
      ensures session.Some? && session.value !in adminLogins ==> reply == Failure(Forbidden)
      ensures AdminGuard(session, adminLogins).Admitted? ==>
                if body.None? then reply == Failure(InternalError)
                else if Blank(body.value.userId) then reply == Failure(BadRequest)
                else if updateFails || body.value.userId.value !in old(userLogins) then reply == Failure(InternalError)
                else reply.Success?
      ensures reply.Success? ==>
                var uid := body.value.userId.value;
                var adminId := adminLogins[session.value].id;
                && userLogins == old(userLogins)[uid := ApprovedRow(old(userLogins)[uid], adminId, now)]
                && reply.value == userLogins[uid]
                && approvalLogs == old(approvalLogs) +
                     (if logInsertFails then []
                      else [InsertedLog(ApprovalLogInsert(uid, adminId, Approved, None), logId, loggedAt)])
                && sentEmails == old(sentEmails) +
                     (if reply.value.email != "" then [ApprovalEmail(reply.value.email, reply.value.fullName)] else [])
    {
      var guard := AdminGuard(session, adminLogins);
      if guard.Denied? {
        reply := Failure(guard.status);
        return;
      }
      var adminRecord := guard.admin;
      if body.None? {
        reply := Failure(InternalError);
        return;
      }
      var userId := body.value.userId;
      if Blank(userId) {
        reply := Failure(BadRequest);
        return;
      }
      var uid := userId.value;
      if updateFails || uid !in userLogins {
        reply := Failure(InternalError);
        return;
      }
      var updatedUser := ApplyUserLoginUpdate(userLogins[uid], ApprovePatch(adminRecord.id, now));
      userLogins := userLogins[uid := updatedUser];
      if !logInsertFails {
        approvalLogs := approvalLogs + [InsertedLog(ApprovalLogInsert(uid, adminRecord.id, Approved, None), logId, loggedAt)];
      }
      if updatedUser.email != "" {
        sentEmails := sentEmails + [ApprovalEmail(updatedUser.email, updatedUser.fullName)];
      }
      reply := Success(updatedUser);
    }

    /** POST /api/admin/reject-user, with the parameters of ApproveUser except the
        clock, which a rejection does not read. */
    method RejectUser(session: Option<Id>, body: Option<RejectBody>, logId: Id,
                      loggedAt: Timestamp, updateFails: bool, logInsertFails: bool)
      returns (reply: Reply<UserLogin>)
      requires Valid()
      modifies this
      ensures Valid()
      ensures AppendOnly(old(approvalLogs), approvalLogs)
      ensures reply.Failure? ==>
                userLogins == old(userLogins) && approvalLogs == old(approvalLogs) && sentEmails == old(sentEmails)
      ensures session.None? ==> reply == Failure(Unauthorized)
      ensures session.Some? && session.value !in adminLogins ==> reply == Failure(Forbidden)
      ensures AdminGuard(session, adminLogins).Admitted? ==>
                if body.None? then reply == Failure(InternalError)
                else if Blank(body.value.userId) then reply == Failure(BadRequest)
                else if updateFails || body.value.userId.value !in old(userLogins) then reply == Failure(InternalError)
                else reply.Success?
      ensures reply.Success? ==>
                var uid := body.value.userId.value;
                var reason := body.value.reason;
                var adminId := adminLogins[session.value].id;
                && userLogins == old(userLogins)[uid := RejectedRow(old(userLogins)[uid], reason)]
                && reply.value == userLogins[uid]
                && approvalLogs == old(approvalLogs) +
                     (if logInsertFails then []
                      else [InsertedLog(ApprovalLogInsert(uid, adminId, Rejected, OrNull(reason)), logId, loggedAt)])
                && sentEmails == old(sentEmails) +
                     (if reply.value.email != "" then [RejectionEmail(reply.value.email, reply.value.fullName, reason)]
                      else [])
    {
      var guard := AdminGuard(session, adminLogins);
      if guard.Denied? {
        reply := Failure(guard.status);
        return;
      }
      var adminRecord := guard.admin;
      if body.None? {
        reply := Failure(InternalError);
        return;
      }
      var userId, reason := body.value.userId, body.value.reason;
      if Blank(userId) {
        reply := Failure(BadRequest);
        return;
      }
      var uid := userId.value;
      if updateFails || uid !in userLogins {
        reply := Failure(InternalError);
        return;
      }
      var updatedUser := ApplyUserLoginUpdate(userLogins[uid], RejectPatch(reason));
      userLogins := userLogins[uid := updatedUser];
      if !logInsertFails {
        approvalLogs := approvalLogs + [InsertedLog(ApprovalLogInsert(uid, adminRecord.id, Rejected, OrNull(reason)), logId, loggedAt)];
      }
      if updatedUser.email != "" {
        sentEmails := sentEmails + [RejectionEmail(updatedUser.email, updatedUser.fullName, reason)];
      }
      reply := Success(updatedUser);
    }
  }

  /** Two successful approvals of the same user by the same admin, at times t1
      then t2, logged as id1 at l1 and id2 at l2: the row ends as one approval at
      t2 would leave it, with one log row per call. */
  method ApproveTwice(store: ApprovalStore, authId: Id, uid: Id, t1: Timestamp, t2: Timestamp,
                      id1: Id, l1: Timestamp, id2: Id, l2: Timestamp)
    requires store.Valid()
    requires authId in store.adminLogins && uid in store.userLogins && uid != ""
    modifies store
    ensures store.Valid()
    ensures var adminId := store.adminLogins[authId].id;
            && store.userLogins == old(store.userLogins)[uid := ApprovedRow(old(store.userLogins)[uid], adminId, t2)]
            && store.approvalLogs == old(store.approvalLogs) +
                 [InsertedLog(ApprovalLogInsert(uid, adminId, Approved, None), id1, l1),
                  InsertedLog(ApprovalLogInsert(uid, adminId, Approved, None), id2, l2)]
  {
    var body := Some(ApproveBody(Some(uid)));
    ghost var row := store.userLogins[uid];
    var first := store.ApproveUser(Some(authId), body, t1, id1, l1, false, false);
    var second := store.ApproveUser(Some(authId), body, t2, id2, l2, false, false);
    ApproveIdempotent(row, store.adminLogins[authId].id, t1, t2);
  }
}
