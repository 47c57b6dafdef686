/**
 * The audit table of money movements: inserting a record, changing a
 * record's status, and the read queries, which filter the table, order it
 * newest first and cut one page out of it.
 */
module AuditStore {
  import opened Wrappers
  import opened Records
  import Numbers

  /** The WHERE clause of each query. */
  datatype Criterion =
    | Involving(user: Uuid)                   // user_id = u OR recipient_user_id = u
    | InitiatedBy(user: Uuid)                 // user_id = u
    | InitiatedWithType(user: Uuid, kind: TxType)
    | WithId(id: Uuid)
    | WithTransferId(hex: string)

  predicate Matches(c: Criterion, t: Transaction) {
    match c
    case Involving(u) => t.userId == u || t.recipientUserId == Some(u)
    case InitiatedBy(u) => t.userId == u
    case InitiatedWithType(u, k) => t.userId == u && t.kind == k
    case WithId(id) => t.id == id
    case WithTransferId(hex) => t.transferIdHex == hex
  }

  /** The rows of `table` that satisfy `c`, in table order. */
  function Select(table: seq<Transaction>, c: Criterion): (r: seq<Transaction>)
    ensures |r| <= |table|
    ensures forall x :: x in r <==> x in table && Matches(c, x)
  {
    if table == [] then []
    else if Matches(c, table[0]) then [table[0]] + Select(table[1..], c)
    else Select(table[1..], c)
  }

  /** No row is created later than the one before it. */
  predicate NewestFirstOrder(s: seq<Transaction>) {
    forall i, j :: 0 <= i < j < |s| ==> s[i].createdAt >= s[j].createdAt
  }

  /** Where `t` goes in a newest-first sequence: after every strictly newer row. */
  function InsertPos(t: Transaction, s: seq<Transaction>): (k: nat)
    ensures k <= |s|
    ensures forall i :: 0 <= i < k ==> s[i].createdAt > t.createdAt
    ensures k < |s| ==> s[k].createdAt <= t.createdAt
  {
    if s == [] || t.createdAt >= s[0].createdAt then 0 else 1 + InsertPos(t, s[1..])
  }

  /** Places `t` before the first row that is not newer than it. */
  function Insert(t: Transaction, s: seq<Transaction>): (r: seq<Transaction>)
    requires NewestFirstOrder(s)
    ensures NewestFirstOrder(r)
    ensures multiset(r) == multiset(s) + multiset{t}
  {
    var k := InsertPos(t, s);
    assert s == s[..k] + s[k..];
    InsertAtKeepsOrder(t, s, k);
    s[..k] + [t] + s[k..]
  }

  /** Putting `t` after the newer rows and before the rest keeps the order. */
  lemma InsertAtKeepsOrder(t: Transaction, s: seq<Transaction>, k: nat)
    requires NewestFirstOrder(s) && k <= |s|
    requires forall i :: 0 <= i < k ==> s[i].createdAt > t.createdAt
    requires k < |s| ==> s[k].createdAt <= t.createdAt
    ensures NewestFirstOrder(s[..k] + [t] + s[k..])
  {
    var r := s[..k] + [t] + s[k..];
    assert forall i :: 0 <= i < k ==> r[i] == s[i];
    assert r[k] == t;
    assert forall i :: k < i < |r| ==> r[i] == s[i - 1];
    forall i, j | 0 <= i < j < |r|
      ensures r[i].createdAt >= r[j].createdAt
    {
      if j == k {
      } else if i == k {
        assert r[j] == s[j - 1];
      } else if j < k {
      } else if i < k {
        assert r[i] == s[i] && r[j] == s[j - 1];
      } else {
        assert r[i] == s[i - 1] && r[j] == s[j - 1];
      }
    }
  }

  /** ORDER BY created_at DESC: the same rows, newest first. */
  function NewestFirst(s: seq<Transaction>): (r: seq<Transaction>)
    ensures NewestFirstOrder(r)
    ensures multiset(r) == multiset(s) && |r| == |s|
  {
    if s == [] then []
    else
      assert s == [s[0]] + s[1..];
      Insert(s[0], NewestFirst(s[1..]))
  }

  /** The filtered table in query order, before any paging. */
  function Ordered(table: seq<Transaction>, c: Criterion): seq<Transaction> {
    NewestFirst(Select(table, c))
  }

  /**
   * OFFSET (page − 1) × limit, computed in 64-bit `int` so that a product
   * beyond the int64 range wraps, and then a negative offset raised to 0.
   */
  function PageOffset(page: int, limit: int): nat {
    var offset := Numbers.WrapInt64((page - 1) * limit);
    if offset < 0 then 0 else offset
  }

  /** OFFSET then LIMIT; a negative limit means no limit. */
  function Window(s: seq<Transaction>, offset: nat, limit: int): seq<Transaction> {
    var rest := if offset <= |s| then s[offset..] else [];
    if limit < 0 || limit >= |rest| then rest else rest[..limit]
  }

  function Page(table: seq<Transaction>, c: Criterion, page: int, limit: int): seq<Transaction> {
    Window(Ordered(table, c), PageOffset(page, limit), limit)
  }

  /** A window with a non-negative limit is one slice of the sequence. */
  lemma WindowSlice(s: seq<Transaction>, offset: nat, limit: int)
    requires limit >= 0
    ensures Window(s, offset, limit) == s[Min(offset, |s|)..Min(offset + limit, |s|)]
  {
  }

  /** A window keeps only rows of the sequence, keeps their order, and holds at most `limit` of them. */
  lemma WindowShape(s: seq<Transaction>, offset: nat, limit: int)
    ensures forall x :: x in Window(s, offset, limit) ==> x in s
    ensures NewestFirstOrder(s) ==> NewestFirstOrder(Window(s, offset, limit))
    ensures limit >= 0 ==> |Window(s, offset, limit)| <= limit
  {
    var rest := if offset <= |s| then s[offset..] else [];
    assert forall x :: x in rest ==> x in s;
  }

  /** The ordered result holds exactly the matching rows of the table. */
  lemma OrderedRows(table: seq<Transaction>, c: Criterion)
    ensures forall x :: x in Ordered(table, c) <==> x in table && Matches(c, x)
  {
    var sel := Select(table, c);
    assert forall x :: x in Ordered(table, c) <==> x in multiset(sel);
  }

  /** Every page holds only matching rows of the table, newest first, at most `limit` of them. */
  lemma PageShape(table: seq<Transaction>, c: Criterion, page: int, limit: int)
    ensures var r := Page(table, c, page, limit);
      (forall x :: x in r ==> x in table && Matches(c, x)) &&
      NewestFirstOrder(r) &&
      (limit >= 0 ==> |r| <= limit)
  {
    OrderedRows(table, c);
    WindowShape(Ordered(table, c), PageOffset(page, limit), limit);
  }

  /**
   * From page 1 on, while page × limit fits in an int64, the offset is
   * exactly (page − 1) × limit, and the next page's offset `limit` more.
   */
  lemma PageOffsetExact(page: int, limit: int)
    requires page >= 1 && limit >= 0 && page * limit <= Numbers.MaxInt64
    ensures PageOffset(page, limit) == (page - 1) * limit
    ensures PageOffset(page + 1, limit) == (page - 1) * limit + limit
  {
    MulNonNegative(page - 1, limit);
    assert page * limit == (page - 1) * limit + limit;
  }

  /**
   * Beyond that range the product wraps: page 922337203685477582 of 10
   * rows multiplies out to MaxInt64 + 3, which wraps to a negative offset,
   * which is raised to 0, so that page is page 1.
   */
  lemma HugePageWrapsToFirst(table: seq<Transaction>, user: Uuid)
    ensures PageOffset(922337203685477582, 10) == 0
    ensures GetAllByUserID(table, user, 922337203685477582, 10, true) == GetAllByUserID(table, user, 1, 10, true)
  {
    assert (922337203685477582 - 1) * 10 == Numbers.MaxInt64 + 3;
    assert Numbers.WrapInt64(Numbers.MaxInt64 + 3) == Numbers.MinInt64 + 2;
  }

  /**
   * With a positive limit, page `page` is the slice of the ordered result
   * that starts at its offset ((page − 1) × limit, see `PageOffsetExact`),
   * and pages `page` and `page + 1` are adjacent, non-overlapping slices.
   */
  lemma PagesAreContiguous(table: seq<Transaction>, c: Criterion, page: int, limit: int)
    requires page >= 1 && limit >= 1 && page * limit <= Numbers.MaxInt64
    ensures var s := Ordered(table, c);
      var lo := PageOffset(page, limit);
      Page(table, c, page, limit) == s[Min(lo, |s|)..Min(lo + limit, |s|)] &&
      Page(table, c, page + 1, limit) == s[Min(lo + limit, |s|)..Min(lo + 2 * limit, |s|)]
  {
    PageSlice(table, c, page, limit);
    NextPageSlice(table, c, page, limit);
  }

  lemma NextPageSlice(table: seq<Transaction>, c: Criterion, page: int, limit: int)
    requires page >= 1 && limit >= 0 && page * limit <= Numbers.MaxInt64
    ensures var s := Ordered(table, c);
      var lo := PageOffset(page, limit);
      Page(table, c, page + 1, limit) == s[Min(lo + limit, |s|)..Min(lo + 2 * limit, |s|)]
  {
    PageOffsetNext(page, limit);
    PageSlice(table, c, page + 1, limit);
  }

  lemma PageSlice(table: seq<Transaction>, c: Criterion, page: int, limit: int)
    requires limit >= 0
    ensures var s := Ordered(table, c);
      var lo := PageOffset(page, limit);
      Page(table, c, page, limit) == s[Min(lo, |s|)..Min(lo + limit, |s|)]
  {
    WindowSlice(Ordered(table, c), PageOffset(page, limit), limit);
  }

  lemma PageOffsetNext(page: int, limit: int)
    requires page >= 1 && limit >= 0 && page * limit <= Numbers.MaxInt64
    ensures PageOffset(page + 1, limit) == PageOffset(page, limit) + limit
  {
    PageOffsetExact(page, limit);
  }

  lemma MulNonNegative(a: int, b: int)
    requires a >= 0 && b >= 0
    ensures a * b >= 0
  {
  }

  function Min(a: int, b: int): int {
    if a <= b then a else b
  }

  /** The rows with the smallest id, as `First` orders by primary key. */
  function Earliest(s: seq<Transaction>): (r: Transaction)
    requires s != []
    ensures r in s
    ensures forall x :: x in s ==> r.id <= x.id
  {
    if |s| == 1 then s[0]
    else
      var rest := Earliest(s[1..]);
      assert s == [s[0]] + s[1..];
      if s[0].id <= rest.id then s[0] else rest
  }

  // ---------------------------------------------------------------------
  // The read queries; `dbOk` is whether the database answered.
  // ---------------------------------------------------------------------

  /** `GetByUserID`: a page of the rows the user initiated. */
  function GetByUserID(table: seq<Transaction>, user: Uuid, page: int, limit: int, dbOk: bool)
    : (r: Result<seq<Transaction>, string>)
    ensures r.Err? <==> !dbOk
    ensures r.Ok? ==> forall x :: x in r.value ==> x in table && x.userId == user
    ensures r.Ok? ==> NewestFirstOrder(r.value) && (limit >= 0 ==> |r.value| <= limit)
    ensures r.Ok? ==> r.value == Page(table, InitiatedBy(user), page, limit)
  {
    PageShape(table, InitiatedBy(user), page, limit);
    if !dbOk then Err("failed to retrieve transactions")
    else Ok(Page(table, InitiatedBy(user), page, limit))
  }

  /** `GetAllByUserID`: a page of the rows the user sent or received. */
  function GetAllByUserID(table: seq<Transaction>, user: Uuid, page: int, limit: int, dbOk: bool)
    : (r: Result<seq<Transaction>, string>)
    ensures r.Err? <==> !dbOk
    ensures r.Ok? ==> forall x :: x in r.value ==> x in table && (x.userId == user || x.recipientUserId == Some(user))
    ensures r.Ok? ==> NewestFirstOrder(r.value) && (limit >= 0 ==> |r.value| <= limit)
    ensures r.Ok? ==> r.value == Page(table, Involving(user), page, limit)
  {
    PageShape(table, Involving(user), page, limit);
    if !dbOk then Err("failed to retrieve transactions")
    else Ok(Page(table, Involving(user), page, limit))
  }

  /** `GetByUserIDAndType`: a page of the user's own rows of one type. */
  function GetByUserIDAndType(table: seq<Transaction>, user: Uuid, kind: TxType, page: int, limit: int, dbOk: bool)
    : (r: Result<seq<Transaction>, string>)
    ensures r.Err? <==> !dbOk
    ensures r.Ok? ==> forall x :: x in r.value ==> x in table && x.userId == user && x.kind == kind
    ensures r.Ok? ==> NewestFirstOrder(r.value) && (limit >= 0 ==> |r.value| <= limit)
    ensures r.Ok? ==> r.value == Page(table, InitiatedWithType(user, kind), page, limit)
  {
    PageShape(table, InitiatedWithType(user, kind), page, limit);
    if !dbOk then Err("failed to retrieve transactions by type")
    else Ok(Page(table, InitiatedWithType(user, kind), page, limit))
  }

  /** `GetRecent`: the newest `limit` rows the user sent or received. */
  function GetRecent(table: seq<Transaction>, user: Uuid, limit: int, dbOk: bool)
    : (r: Result<seq<Transaction>, string>)
    ensures r.Err? <==> !dbOk
    ensures r.Ok? ==> NewestFirstOrder(r.value) && (limit >= 0 ==> |r.value| <= limit)
    ensures r.Ok? && limit >= 1 ==> r.value == GetAllByUserID(table, user, 1, limit, true).value
  {
    PageShape(table, Involving(user), 1, limit);
    assert PageOffset(1, limit) == 0;
    if !dbOk then Err("failed to retrieve recent transactions")
    else Ok(Window(Ordered(table, Involving(user)), 0, limit))
  }

  /** `CountByUserID`: how many rows the user initiated. */
  function CountByUserID(table: seq<Transaction>, user: Uuid, dbOk: bool): (r: Result<nat, string>)
    ensures r.Err? <==> !dbOk
    ensures r.Ok? ==> r.value == |Ordered(table, InitiatedBy(user))|
  {
    if !dbOk then Err("failed to count transactions") else Ok(|Select(table, InitiatedBy(user))|)
  }

  /** `CountAllByUserID`: how many rows the user sent or received. */
  function CountAllByUserID(table: seq<Transaction>, user: Uuid, dbOk: bool): (r: Result<nat, string>)
    ensures r.Err? <==> !dbOk
    ensures r.Ok? ==> r.value == |Ordered(table, Involving(user))|
  {
    if !dbOk then Err("failed to count all transactions") else Ok(|Select(table, Involving(user))|)
  }

  /**
   * The count is what paging through `GetAllByUserID` yields: a page is
   * empty exactly when it starts at or after the count, and otherwise holds
   * `limit` rows or what is left.
   */
  lemma CountBoundsPages(table: seq<Transaction>, user: Uuid, page: int, limit: int)
    requires page >= 1 && limit >= 1
    ensures var n := CountAllByUserID(table, user, true).value;
      var p := GetAllByUserID(table, user, page, limit, true).value;
      var lo := PageOffset(page, limit);
      |p| == if lo >= n then 0 else Min(limit, n - lo)
  {
    WindowSlice(Ordered(table, Involving(user)), PageOffset(page, limit), limit);
  }

  /** `GetByID`: the row with this id. */
  function GetByID(table: seq<Transaction>, id: Uuid, dbOk: bool): (r: Result<Transaction, string>)
    ensures !dbOk ==> r == Err("failed to retrieve transaction")
    ensures dbOk && (forall x :: x in table ==> x.id != id) ==> r == Err("transaction not found")
    ensures dbOk && (exists x :: x in table && x.id == id) ==> r.Ok?
    ensures r.Ok? ==> r.value in table && r.value.id == id
  {
    if !dbOk then Err("failed to retrieve transaction")
    else
      var hits := Select(table, WithId(id));
      if hits == [] then Err("transaction not found") else Ok(Earliest(hits))
  }

  /** `GetByTigerBeetleTransferID`: the row storing this transfer ID; the smallest id wins. */
  function GetByTigerBeetleTransferID(table: seq<Transaction>, hex: string, dbOk: bool)
    : (r: Result<Transaction, string>)
    ensures !dbOk ==> r == Err("failed to retrieve transaction")
    ensures dbOk && (forall x :: x in table ==> x.transferIdHex != hex) ==> r == Err("transaction not found")
    ensures dbOk && (exists x :: x in table && x.transferIdHex == hex) ==> r.Ok?
    ensures r.Ok? ==> r.value in table && r.value.transferIdHex == hex
    ensures r.Ok? ==> forall x :: x in table && x.transferIdHex == hex ==> r.value.id <= x.id
  {
    if !dbOk then Err("failed to retrieve transaction")
    else
      var hits := Select(table, WithTransferId(hex));
      if hits == [] then Err("transaction not found") else Ok(Earliest(hits))
  }

  // ---------------------------------------------------------------------
  // The table, changed in place
  // ---------------------------------------------------------------------

  /** The table admits a row that is well formed and whose id and transfer ID are new. */
  predicate Admits(rows: seq<Transaction>, t: Transaction) {
    WellFormed(t) &&
    (forall x :: x in rows ==> x.id != t.id && x.transferIdHex != t.transferIdHex)
  }

  /** The table's constraints: well-formed rows, unique ids, unique transfer IDs. */
  predicate Consistent(rows: seq<Transaction>) {
    (forall i :: 0 <= i < |rows| ==> WellFormed(rows[i])) &&
    (forall i, j :: 0 <= i < j < |rows| ==> rows[i].id != rows[j].id && rows[i].transferIdHex != rows[j].transferIdHex)
  }

  /**
   * Every row with id `id` gets `status` and `now` as update time and keeps
   * its other columns; every other row is untouched. A set status keeps the
   * table's constraints.
   */
  function SetStatus(rows: seq<Transaction>, id: Uuid, status: TxStatus, now: int): (r: seq<Transaction>)
    ensures |r| == |rows|
    ensures forall i :: 0 <= i < |rows| && rows[i].id != id ==> r[i] == rows[i]
    ensures forall i :: 0 <= i < |rows| && rows[i].id == id ==>
      r[i].status == status && r[i].updatedAt == now &&
      r[i].(status := rows[i].status, updatedAt := rows[i].updatedAt) == rows[i]
    ensures status != Unset && Consistent(rows) ==> Consistent(r)
  {
    seq(|rows|, i requires 0 <= i < |rows| =>
      if rows[i].id == id then rows[i].(status := status, updatedAt := now) else rows[i])
  }

  class Repository {
    var rows: seq<Transaction>

    ghost predicate Valid()
      reads this
    {
      Consistent(rows)
    }

    constructor ()
      ensures Valid() && rows == []
    {
      rows := [];
    }

    /**
     * `Create`: the record first gets its creation defaults (id, status,
     * and the clock reading `now` for unset timestamps); the row is then
     * inserted if the database answers (`dbOk`) and its constraints admit it.
     */
    method Create(record: TransactionRecord, freshId: Uuid, now: int, dbOk: bool) returns (err: Option<string>)
      requires Valid() && freshId != NilUuid
      modifies this, record
      ensures Valid()
      ensures record.id == (if old(record.id) == NilUuid then freshId else old(record.id))
      ensures record.status == (if old(record.status) == Unset then Pending else old(record.status))
      ensures record.createdAt == (if old(record.createdAt) == 0 then now else old(record.createdAt))
      ensures record.updatedAt == (if old(record.updatedAt) == 0 then now else old(record.updatedAt))
      ensures record.Value() == old(record.Value()).(id := record.id, status := record.status,
                                                    createdAt := record.createdAt, updatedAt := record.updatedAt)
      ensures err.None? <==> dbOk && Admits(old(rows), record.Value())
      ensures rows == if err.None? then old(rows) + [record.Value()] else old(rows)
    {
      record.BeforeCreate(freshId);
      if record.createdAt == 0 {
        record.createdAt := now;
      }
      if record.updatedAt == 0 {
        record.updatedAt := now;
      }
      var row := record.Value();
      if dbOk && Admits(rows, row) {
        rows := rows + [row];
        err := None;
      } else {
        err := Some("failed to create transaction record");
      }
    }

    /**
     * `UpdateStatus`: every row with this id gets the new status and the
     * current time as its update time; nothing else changes. An empty
     * status breaks the column's check and changes nothing.
     */
    method UpdateStatus(id: Uuid, status: TxStatus, now: int, dbOk: bool) returns (err: Option<string>)
      requires Valid()
      modifies this
      ensures Valid()
      ensures err.None? <==> dbOk && status != Unset
      ensures |rows| == |old(rows)|
      ensures forall i :: 0 <= i < |rows| ==>
        rows[i] == if err.None? && old(rows)[i].id == id
                   then old(rows)[i].(status := status, updatedAt := now)
                   else old(rows)[i]
    {
      if dbOk && status != Unset {
        rows := SetStatus(rows, id, status, now);
        err := None;
      } else {
        err := Some("failed to update transaction status");
      }
    }
  }
}
