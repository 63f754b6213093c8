/** GET /api/admin/users (src/pages/api/admin/users.ts): after the admin guard,
    one page of user_logins, newest first, optionally restricted to one
    approval status, with the page arithmetic the response reports. */
module UserListing {
  import opened Types
  import opened AdminApi

  const AllStatuses := "all"
  const DefaultPage := 1
  const DefaultLimit := 20

  /** `url.searchParams.get('filter') || 'all'`. */
  function FilterOf(param: Option<string>): (f: string)
    ensures Blank(param) ==> f == AllStatuses
    ensures !Blank(param) ==> f == param.value
  {
    if Blank(param) then AllStatuses else param.value
  }

  /** `filter !== 'all'` adds `.eq('approval_status', filter)`: a row matches
      the filter `all`, or a filter that reads back as the row's status. */
  function MatchesFilter(row: UserLogin, filter: string): (b: bool)
    ensures b <==> filter == AllStatuses || ParseStatus(filter) == Some(row.approvalStatus)
  {
    filter == AllStatuses || StatusName(row.approvalStatus) == filter
  }

  /** The rows the filtered query selects, in table order: each row is kept as
      often as it occurs if it matches, and dropped otherwise. */
  function FilterRows(rows: seq<UserLogin>, filter: string): (r: seq<UserLogin>)
    ensures forall row :: multiset(r)[row] == if MatchesFilter(row, filter) then multiset(rows)[row] else 0
    ensures forall row :: row in r ==> row in rows && MatchesFilter(row, filter)
    ensures filter == AllStatuses ==> r == rows
    ensures |r| <= |rows|
  {
    if rows == [] then []
    else
      assert rows == [rows[0]] + rows[1..];
      (if MatchesFilter(rows[0], filter) then [rows[0]] else []) + FilterRows(rows[1..], filter)
  }

  /** A filter naming no status (anything but "all" and the three status names) selects nothing. */
  lemma UnknownFilterSelectsNothing(rows: seq<UserLogin>, filter: string)
    requires filter != AllStatuses && ParseStatus(filter).None?
    ensures FilterRows(rows, filter) == []
  {
  }

  /** `.order('created_at', { ascending: false })`. */
  predicate NewestFirst(rows: seq<UserLogin>) {
    forall i, j :: 0 <= i < j < |rows| ==> rows[i].createdAt >= rows[j].createdAt
  }

  /** A row no older than the head of a newest-first list may go in front of it. */
  lemma ConsNewestFirst(row: UserLogin, rows: seq<UserLogin>)
    requires NewestFirst(rows)
    requires rows != [] ==> row.createdAt >= rows[0].createdAt
    ensures NewestFirst([row] + rows)
  {
  }

  function InsertByCreatedAt(row: UserLogin, rows: seq<UserLogin>): (r: seq<UserLogin>)
    requires NewestFirst(rows)
    ensures NewestFirst(r)
    ensures multiset(r) == multiset(rows) + multiset{row}
    ensures |r| == |rows| + 1
    ensures r[0] == row || (rows != [] && r[0] == rows[0])
  {
    if rows == [] || row.createdAt >= rows[0].createdAt then
      ConsNewestFirst(row, rows);
      [row] + rows
    else
      assert NewestFirst(rows[1..]);
      var rest := InsertByCreatedAt(row, rows[1..]);
      assert rows == [rows[0]] + rows[1..];
      ConsNewestFirst(rows[0], rest);
      [rows[0]] + rest
  }

  /** The order the database returns: a permutation of the rows, newest first. */
  function OrderByCreatedAtDesc(rows: seq<UserLogin>): (r: seq<UserLogin>)
    ensures NewestFirst(r)
    ensures multiset(r) == multiset(rows)
  {
    if rows == [] then []
    else
      assert rows == [rows[0]] + rows[1..];
      InsertByCreatedAt(rows[0], OrderByCreatedAtDesc(rows[1..]))
  }

  /** `(page - 1) * limit`: only the first page starts at position 0, and each
      page before it holds at least one position. */
  function Offset(page: int, limit: int): (offset: nat)
    requires page >= 1 && limit >= 1
    ensures offset == 0 <==> page == 1
    ensures offset >= page - 1
  {
    assert (page - 1) * limit >= (page - 1) * 1;
    (page - 1) * limit
  }

  /** `.range(offset, offset + limit - 1)`: the rows at positions from..to inclusive. */
  function RangeOf(rows: seq<UserLogin>, from: nat, to: int): (r: seq<UserLogin>)
    ensures |r| == if from >= |rows| || to < from then 0 else (if to < |rows| then to + 1 else |rows|) - from
    ensures forall k :: 0 <= k < |r| ==> from + k < |rows| && r[k] == rows[from + k]
  {
    if from >= |rows| || to < from then []
    else if to < |rows| then rows[from..to + 1]
    else rows[from..]
  }

  /** The window a page requests: `limit` positions starting at its offset. */
  function PageRows(rows: seq<UserLogin>, page: int, limit: int): (r: seq<UserLogin>)
    requires page >= 1 && limit >= 1
    ensures |r| <= limit
  {
    RangeOf(rows, Offset(page, limit), Offset(page, limit) + limit - 1)
  }

  /** `Math.ceil(count / limit)` on naturals. */
  function CeilDiv(count: nat, limit: nat): (r: nat)
    requires limit >= 1
    ensures count <= r * limit
    ensures r > 0 ==> (r - 1) * limit < count
  {
    var q := (count + limit - 1) / limit;
    var rem := (count + limit - 1) % limit;
    assert count + limit - 1 == q * limit + rem;
    assert (q - 1) * limit == q * limit - limit;
    q
  }

  datatype Pagination = Pagination(page: int, limit: int, total: nat, totalPages: nat)
  datatype UserPage = UserPage(users: seq<UserLogin>, pagination: Pagination)

  /** A page of the filtered, ordered rows is newest first and holds only
      matching rows of the table. */
  lemma PageOfSelection(table: seq<UserLogin>, filter: string, page: int, limit: int)
    requires page >= 1 && limit >= 1
    ensures var users := PageRows(OrderByCreatedAtDesc(FilterRows(table, filter)), page, limit);
            && NewestFirst(users)
            && forall row :: row in users ==> row in table && MatchesFilter(row, filter)
  {
    var selected := FilterRows(table, filter);
    var ordered := OrderByCreatedAtDesc(selected);
    var offset := Offset(page, limit);
    RangeKeepsOrderAndRows(ordered, offset, offset + limit - 1);
    forall row | row in ordered ensures row in selected {
      assert row in multiset(ordered);
    }
  }

  /** A range of a newest-first list is newest first and holds only rows of the list. */
  lemma RangeKeepsOrderAndRows(rows: seq<UserLogin>, from: nat, to: int)
    requires NewestFirst(rows)
    ensures NewestFirst(RangeOf(rows, from, to))
    ensures forall row :: row in RangeOf(rows, from, to) ==> row in rows
  {
  }

  /** The endpoint. `table` is user_logins in storage order; `page` and `limit`
      are the parsed query parameters, None when absent or empty; `queryFails`
      stands for a database error on the select. */
  function ListUsers(session: Option<Id>, admins: map<Id, AdminLogin>, table: seq<UserLogin>,
                     filterParam: Option<string>, pageParam: Option<int>, limitParam: Option<int>,
                     queryFails: bool): (r: Reply<UserPage>)
    requires pageParam.Some? ==> pageParam.value >= 1
    requires limitParam.Some? ==> limitParam.value >= 1
    ensures session.None? ==> r == Failure(Unauthorized)
    ensures session.Some? && session.value !in admins ==> r == Failure(Forbidden)
    ensures AdminGuard(session, admins).Admitted? ==>
              (r.Failure? <==> queryFails) && (r.Failure? ==> r.status == InternalError)
    ensures r.Success? ==>
              var filter := FilterOf(filterParam);
              var page, limit := pageParam.GetOr(DefaultPage), limitParam.GetOr(DefaultLimit);
              var selected := FilterRows(table, filter);
              && r.value.pagination == Pagination(page, limit, |selected|, CeilDiv(|selected|, limit))
              && r.value.users == PageRows(OrderByCreatedAtDesc(selected), page, limit)
              && |r.value.users| <= limit
              && NewestFirst(r.value.users)
              && (forall row :: row in r.value.users ==> row in table && MatchesFilter(row, filter))
  {
    match AdminGuard(session, admins)
    case Denied(status) => Failure(status)
    case Admitted(_) =>
      var filter := FilterOf(filterParam);
      var page := pageParam.GetOr(DefaultPage);
      var limit := limitParam.GetOr(DefaultLimit);
      var selected := FilterRows(table, filter);
      var users := PageRows(OrderByCreatedAtDesc(selected), page, limit);
      if queryFails then Failure(InternalError)
      else
        PageOfSelection(table, filter, page, limit);
        Success(UserPage(users, Pagination(page, limit, |selected|, CeilDiv(|selected|, limit))))
  }

  /** Page 1 starts at the head of the list, and consecutive pages request
      adjacent, non-overlapping ranges. */
  lemma ConsecutivePagesAdjacent(page: int, limit: int)
    requires page >= 1 && limit >= 1
    ensures Offset(1, limit) == 0
    ensures Offset(page + 1, limit) == Offset(page, limit) + limit
  {
  }

  /** Pages 1 to k, concatenated. */
  function FirstPages(rows: seq<UserLogin>, limit: int, k: nat): seq<UserLogin>
    requires limit >= 1
  {
    if k == 0 then [] else FirstPages(rows, limit, k - 1) + PageRows(rows, k, limit)
  }

  function Min(a: int, b: int): int {
    if a <= b then a else b
  }

  /** Page k is the slice of positions (k - 1) * limit up to k * limit, cut at the end of the list. */
  lemma PageIsSlice(rows: seq<UserLogin>, limit: int, k: int)
    requires limit >= 1 && k >= 1
    ensures Min(Offset(k, limit), |rows|) <= Min(Offset(k, limit) + limit, |rows|)
    ensures PageRows(rows, k, limit) == rows[Min(Offset(k, limit), |rows|)..Min(Offset(k, limit) + limit, |rows|)]
  {
    var from := Offset(k, limit);
    var r := PageRows(rows, k, limit);
    var a, b := Min(from, |rows|), Min(from + limit, |rows|);
    assert |r| == b - a;
  }

  /** Pages 1 to k hold exactly the first k * limit rows, in order. */
  lemma FirstPagesArePrefix(rows: seq<UserLogin>, limit: int, k: nat)
    requires limit >= 1
    ensures FirstPages(rows, limit, k) == rows[..Min(k * limit, |rows|)]
  {
    FirstPagesUpTo(rows, limit, k, k * limit);
  }

  /** The induction behind FirstPagesArePrefix, with n standing for k * limit. */
  lemma {:induction false} FirstPagesUpTo(rows: seq<UserLogin>, limit: int, k: nat, n: nat)
    requires limit >= 1 && n == k * limit
    ensures FirstPages(rows, limit, k) == rows[..Min(n, |rows|)]
  {
    if k > 0 {
      var m := n - limit;
      assert m == (k - 1) * limit == Offset(k, limit);
      FirstPagesUpTo(rows, limit, k - 1, m);
      PageIsSlice(rows, limit, k);
      var a, b := Min(m, |rows|), Min(n, |rows|);
      assert FirstPages(rows, limit, k) == rows[..a] + rows[a..b];
      assert rows[..a] + rows[a..b] == rows[..b];
    }
  }

  lemma MulMonotone(a: int, b: int, c: nat)
    requires a <= b
    ensures a * c <= b * c
  {
  }

  /** The reported page count is exactly enough: pages 1 to totalPages hold every
      selected row once, in order. */
  lemma {:induction false} TotalPagesCoverList(rows: seq<UserLogin>, limit: int)
    requires limit >= 1
    ensures FirstPages(rows, limit, CeilDiv(|rows|, limit)) == rows
  {
    FirstPagesArePrefix(rows, limit, CeilDiv(|rows|, limit));
    assert rows[..|rows|] == rows;
  }

  /** Every page up to totalPages has rows, and every page beyond it is empty. */
  lemma {:induction false} PageNonEmptyIffWithinTotal(rows: seq<UserLogin>, limit: int, page: int)
    requires limit >= 1 && page >= 1
    ensures PageRows(rows, page, limit) != [] <==> page <= CeilDiv(|rows|, limit)
  {
    var n := CeilDiv(|rows|, limit);
    if page > n {
      MulMonotone(n, page - 1, limit);
    } else {
      MulMonotone(page - 1, n - 1, limit);
    }
  }
}
