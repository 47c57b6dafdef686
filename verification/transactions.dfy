/**
 * The money-movement service: deposit, withdraw and transfer against the
 * ledger, each followed by a best-effort audit record, and the history
 * read from the audit table.
 *
 * Every operation runs the same fixed sequence: validate the amount,
 * resolve the user, (withdraw and transfer) check the balance, (transfer)
 * check the destination exists, submit one ledger transfer, and write the
 * audit record. The ledger is the source of truth: once it has applied
 * the transfer the operation succeeds, whether or not the record is written.
 */
module Transactions {
  import opened Wrappers
  import opened Text
  import opened Records
  import opened AuditStore
  import opened Ledger
  import opened Numbers

  /** A registered user: the fields the service reads. */
  datatype User = User(id: Uuid, email: string, fullName: string, accountId: nat)

  /** The users table's constraints: non-nil, unique ids and unique ledger accounts. */
  predicate UsersConsistent(users: seq<User>) {
    (forall i :: 0 <= i < |users| ==> users[i].id != NilUuid) &&
    (forall i, j :: 0 <= i < j < |users| ==> users[i].id != users[j].id && users[i].accountId != users[j].accountId)
  }

  /**
   * What the environment answers during one operation: whether the users
   * table, the two ledger lookups and the recipient query answer, the
   * random 32-bit transfer ID and the 16-byte image of it that is stored,
   * the ledger's answer to the transfer, the new record's random UUID,
   * whether the audit insert reaches the database, and the clock.
   */
  datatype Env = Env(
    usersReachable: bool,
    balanceLookupOk: bool,
    destLookupOk: bool,
    recipientLookupOk: bool,
    transferId: nat,
    transferImage: seq<Byte>,
    reply: BatchReply,
    recordId: Uuid,
    auditOk: bool,
    now: int)

  /** A transfer ID comes from a UUID's 32-bit ID; its image is 16 bytes; record UUIDs are never nil. */
  predicate EnvOk(env: Env) {
    env.transferId < 0x1_0000_0000 && |env.transferImage| == TransferIdBytes && env.recordId != NilUuid
  }

  /** The ledger applies only transfers that pass its own checks. */
  predicate Honest(reply: BatchReply, accounts: map<nat, Account>, t: Ledger.Transfer) {
    reply.Applied? ==> Postable(accounts, t)
  }

  predicate BalancesFitInt64(accounts: map<nat, Account>) {
    forall id :: id in accounts ==> MinInt64 <= Balance(accounts[id]) <= MaxInt64
  }

  /** The first user satisfying the query, if any. */
  function FindUserById(users: seq<User>, id: Uuid): (r: Option<User>)
    ensures r.Some? ==> r.value in users && r.value.id == id
    ensures r.None? ==> forall u :: u in users ==> u.id != id
  {
    if users == [] then None
    else if users[0].id == id then Some(users[0])
    else FindUserById(users[1..], id)
  }

  function FindUserByAccount(users: seq<User>, accountId: nat): (r: Option<User>)
    ensures r.Some? ==> r.value in users && r.value.accountId == accountId
    ensures r.None? ==> forall u :: u in users ==> u.accountId != accountId
  {
    if users == [] then None
    else if users[0].accountId == accountId then Some(users[0])
    else FindUserByAccount(users[1..], accountId)
  }

  /** The pre-flight balance check's error: the fixed text, then the balance and the amount in cents. */
  function InsufficientFundsError(balance: int, amount: nat): string {
    "insufficient funds" + (": balance is " + IntToString(balance) + ", requested " + NatToString(amount))
  }

  /** The three ledger transfers. */
  function DepositTransfer(user: User, amount: nat, id: nat): Ledger.Transfer {
    Ledger.Transfer(id, SystemAccountId, user.accountId, amount, UserLedger, DepositCode)
  }

  function WithdrawTransfer(user: User, amount: nat, id: nat): Ledger.Transfer {
    Ledger.Transfer(id, user.accountId, SystemAccountId, amount, UserLedger, WithdrawCode)
  }

  function PeerTransfer(sender: User, toAccountId: nat, amount: nat, id: nat): Ledger.Transfer {
    Ledger.Transfer(id, sender.accountId, toAccountId, amount, UserLedger, TransferCode)
  }

  /**
   * The audit row an operation stores: its type, amount and accounts, status
   * completed, the transfer ID's text, and the creation defaults it gets on
   * insertion (the fresh UUID and the clock reading).
   */
  function AuditRow(kind: TxType, user: Uuid, recipient: Option<Uuid>, t: Ledger.Transfer, env: Env, description: string)
    : Transaction
    requires EnvOk(env)
  {
    Transaction(env.recordId, user, recipient, kind, t.amount, Completed, t.debitAccountId, t.creditAccountId,
                Uint128ToHex(env.transferImage), description, env.now, env.now)
  }

  /** The audit table after a best-effort insert of `row`. */
  function AfterAudit(rows: seq<Transaction>, row: Transaction, env: Env): seq<Transaction> {
    if env.auditOk && Admits(rows, row) then rows + [row] else rows
  }

  /** `page` below 1 becomes 1. */
  function ClampPage(page: int): (p: int)
    ensures p >= 1 && (page >= 1 ==> p == page)
    ensures page < 1 ==> p == 1
  {
    if page < 1 then 1 else page
  }

  /** A limit outside [1, 100] becomes 10. */
  function ClampLimit(limit: int): (l: int)
    ensures 1 <= l <= 100
    ensures 1 <= limit <= 100 ==> l == limit
    ensures !(1 <= limit <= 100) ==> l == 10
  {
    if limit < 1 || limit > 100 then 10 else limit
  }

  /** The recipient's e-mail and name, when the row names a recipient who exists. */
  function RecipientProfile(users: seq<User>, t: Transaction): (p: Option<Profile>)
    ensures p.Some? ==>
      t.recipientUserId.Some? &&
      exists u :: u in users && u.id == t.recipientUserId.value && p.value == Profile(u.email, u.fullName)
    ensures t.recipientUserId.Some? && (exists u :: u in users && u.id == t.recipientUserId.value) ==> p.Some?
  {
    if t.recipientUserId.None? then None
    else
      match FindUserById(users, t.recipientUserId.value)
      case None => None
      case Some(u) => Some(Profile(u.email, u.fullName))
  }

  class Service {
    const ledger: Client
    const repo: Repository
    /** The users table, which these operations only read. */
    const users: seq<User>
    /** `uuid.Parse`: the UUID a text names, if it is one. */
    const parseUuid: string -> Option<Uuid>

    ghost predicate Valid()
      reads this, ledger, repo
    {
      ledger.Valid() && repo.Valid() && UsersConsistent(users)
    }

    constructor (ledger: Client, repo: Repository, users: seq<User>, parseUuid: string -> Option<Uuid>)
      requires ledger.Valid() && repo.Valid() && UsersConsistent(users)
      ensures Valid()
      ensures this.ledger == ledger && this.repo == repo && this.users == users && this.parseUuid == parseUuid
    {
      this.ledger := ledger;
      this.repo := repo;
      this.users := users;
      this.parseUuid := parseUuid;
    }

    /**
     * `getUserByID`: a malformed ID, then an unreachable table, then a
     * missing user are errors; otherwise the user with that ID.
     */
    function GetUserByID(userId: string, reachable: bool): (r: Result<User, string>)
      reads this
      ensures parseUuid(userId).None? ==> r == Err("invalid user ID format")
      ensures parseUuid(userId).Some? && !reachable ==> r == Err("database error")
      ensures parseUuid(userId).Some? && reachable && (forall u :: u in users ==> u.id != parseUuid(userId).value) ==>
        r == Err("user not found")
      ensures parseUuid(userId).Some? && reachable && (exists u :: u in users && u.id == parseUuid(userId).value) ==> r.Ok?
      ensures r.Ok? ==> r.value in users && parseUuid(userId) == Some(r.value.id)
    {
      match parseUuid(userId)
      case None => Err("invalid user ID format")
      case Some(id) =>
        if !reachable then Err("database error")
        else
          match FindUserById(users, id)
          case None => Err("user not found")
          case Some(u) => Ok(u)
    }

    /**
     * `Deposit`: moves `amount` from the system account to the user's
     * account. A non-positive amount or an unknown user changes nothing; a
     * ledger call error or rejection changes nothing; once the ledger has
     * applied the transfer the deposit succeeds, and the audit row is
     * added if the table accepts it.
     */
    method Deposit(userId: string, amount: int, env: Env) returns (err: Option<string>)
      requires Valid() && EnvOk(env)
      requires amount > 0 && GetUserByID(userId, env.usersReachable).Ok? ==>
        Honest(env.reply, ledger.accounts, DepositTransfer(GetUserByID(userId, env.usersReachable).value, amount, env.transferId))
      modifies ledger, repo
      ensures Valid()
      ensures amount <= 0 ==> err == Some("deposit amount must be positive")
      ensures amount > 0 && GetUserByID(userId, env.usersReachable).Err? ==>
        err == Some(GetUserByID(userId, env.usersReachable).error)
      ensures err.None? <==> amount > 0 && GetUserByID(userId, env.usersReachable).Ok? && env.reply.Applied?
      ensures err.Some? ==> ledger.accounts == old(ledger.accounts) && repo.rows == old(repo.rows)
      ensures err.None? ==>
        var user := GetUserByID(userId, env.usersReachable).value;
        var t := DepositTransfer(user, amount, env.transferId);
        ledger.accounts == Post(old(ledger.accounts), t) &&
        repo.rows == AfterAudit(old(repo.rows), AuditRow(TxType.Deposit, user.id, None, t, env,
                                                          "Deposit of " + NatToString(amount) + " cents"), env)
    {
      if amount <= 0 {
        return Some("deposit amount must be positive");
      }
      var found := GetUserByID(userId, env.usersReachable);
      if found.Err? {
        return Some(found.error);
      }
      var user := found.value;
      var t := Ledger.Transfer(env.transferId, ledger.systemAccountId, user.accountId, amount, UserLedger, DepositCode);
      err := Submit(t, TxType.Deposit, user.id, None, "Deposit of " + NatToString(amount) + " cents", env);
    }

    /**
     * `Withdraw`: moves `amount` from the user's account to the system
     * account. The pre-flight balance must be at least `amount` (equal is
     * enough); otherwise, and on every other failure before the ledger
     * applies the transfer, nothing changes.
     */
    method Withdraw(userId: string, amount: int, env: Env) returns (err: Option<string>)
      requires Valid() && EnvOk(env) && BalancesFitInt64(ledger.accounts)
      requires amount > 0 && GetUserByID(userId, env.usersReachable).Ok? ==>
        Honest(env.reply, ledger.accounts, WithdrawTransfer(GetUserByID(userId, env.usersReachable).value, amount, env.transferId))
      modifies ledger, repo
      ensures Valid()
      ensures amount <= 0 ==> err == Some("withdrawal amount must be positive")
      ensures amount > 0 && GetUserByID(userId, env.usersReachable).Err? ==>
        err == Some(GetUserByID(userId, env.usersReachable).error)
      ensures amount > 0 && GetUserByID(userId, env.usersReachable).Ok? ==>
        var user := GetUserByID(userId, env.usersReachable).value;
        var balance := old(ledger.GetBalance(user.accountId, env.balanceLookupOk));
        (balance.Err? ==> err == Some("failed to check balance: " + balance.error)) &&
        (balance.Ok? && balance.value < amount ==>
           err == Some(InsufficientFundsError(balance.value, amount))) &&
        (err.None? <==> balance.Ok? && balance.value >= amount && env.reply.Applied?)
      ensures err.None? ==> amount > 0 && GetUserByID(userId, env.usersReachable).Ok?
      ensures err.Some? ==> ledger.accounts == old(ledger.accounts) && repo.rows == old(repo.rows)
      ensures err.None? ==>
        var user := GetUserByID(userId, env.usersReachable).value;
        var t := WithdrawTransfer(user, amount, env.transferId);
        ledger.accounts == Post(old(ledger.accounts), t) &&
        repo.rows == AfterAudit(old(repo.rows), AuditRow(TxType.Withdraw, user.id, None, t, env,
                                                          "Withdrawal of " + NatToString(amount) + " cents"), env)
    {
      if amount <= 0 {
        return Some("withdrawal amount must be positive");
      }
      var found := GetUserByID(userId, env.usersReachable);
      if found.Err? {
        return Some(found.error);
      }
      var user := found.value;
      var balance := ledger.GetBalance(user.accountId, env.balanceLookupOk);
      if balance.Err? {
        return Some("failed to check balance: " + balance.error);
      }
      if balance.value < amount {
        return Some(InsufficientFundsError(balance.value, amount));
      }
      var t := Ledger.Transfer(env.transferId, user.accountId, ledger.systemAccountId, amount, UserLedger, WithdrawCode);
      err := Submit(t, TxType.Withdraw, user.id, None, "Withdrawal of " + NatToString(amount) + " cents", env);
    }

    /**
     * `Transfer`: moves `amount` from the sender's account to `toAccountId`.
     * The checks run in order amount, sender, balance, destination; any
     * failure before the ledger applies the transfer changes nothing. The
     * audit row names the recipient exactly when some user owns the
     * destination account and the query for it answers.
     */
    method Transfer(fromUserId: string, toAccountId: nat, amount: int, env: Env) returns (err: Option<string>)
      requires Valid() && EnvOk(env) && BalancesFitInt64(ledger.accounts)
      requires amount > 0 && GetUserByID(fromUserId, env.usersReachable).Ok? ==>
        Honest(env.reply, ledger.accounts, PeerTransfer(GetUserByID(fromUserId, env.usersReachable).value, toAccountId, amount, env.transferId))
      modifies ledger, repo
      ensures Valid()
      ensures amount <= 0 ==> err == Some("transfer amount must be positive")
      ensures amount > 0 && GetUserByID(fromUserId, env.usersReachable).Err? ==>
        err == Some("sender not found: " + GetUserByID(fromUserId, env.usersReachable).error)
      ensures amount > 0 && GetUserByID(fromUserId, env.usersReachable).Ok? ==>
        var sender := GetUserByID(fromUserId, env.usersReachable).value;
        var balance := old(ledger.GetBalance(sender.accountId, env.balanceLookupOk));
        var destFound := env.destLookupOk && toAccountId in old(ledger.accounts);
        (balance.Err? ==> err == Some("failed to check balance: " + balance.error)) &&
        (balance.Ok? && balance.value < amount ==>
           err == Some(InsufficientFundsError(balance.value, amount))) &&
        (balance.Ok? && balance.value >= amount && !destFound ==> err == Some("destination account not found")) &&
        (err.None? <==> balance.Ok? && balance.value >= amount && destFound && env.reply.Applied?)
      ensures err.None? ==> amount > 0 && GetUserByID(fromUserId, env.usersReachable).Ok?
      ensures err.Some? ==> ledger.accounts == old(ledger.accounts) && repo.rows == old(repo.rows)
      ensures err.None? ==>
        var sender := GetUserByID(fromUserId, env.usersReachable).value;
        var t := PeerTransfer(sender, toAccountId, amount, env.transferId);
        var recipient := if env.recipientLookupOk then FindUserByAccount(users, toAccountId) else None;
        var recipientId := if recipient.Some? then Some(recipient.value.id) else None;
        ledger.accounts == Post(old(ledger.accounts), t) &&
        repo.rows == AfterAudit(old(repo.rows), AuditRow(TxType.Transfer, sender.id, recipientId, t, env,
          "Transfer of " + NatToString(amount) + " cents to account " + NatToString(toAccountId)), env)
    {
      if amount <= 0 {
        return Some("transfer amount must be positive");
      }
      var found := GetUserByID(fromUserId, env.usersReachable);
      if found.Err? {
        return Some("sender not found: " + found.error);
      }
      var sender := found.value;
      var balance := ledger.GetBalance(sender.accountId, env.balanceLookupOk);
      if balance.Err? {
        return Some("failed to check balance: " + balance.error);
      }
      if balance.value < amount {
        return Some(InsufficientFundsError(balance.value, amount));
      }
      var dest := ledger.LookupAccounts(toAccountId, env.destLookupOk);
      if dest.Err? || |dest.value| == 0 {
        return Some("destination account not found");
      }
      // The recipient query: a user that cannot be found leaves the nil UUID.
      var toUserId := NilUuid;
      if env.recipientLookupOk {
        var toUser := FindUserByAccount(users, toAccountId);
        if toUser.Some? {
          toUserId := toUser.value.id;
        }
      }
      var t := Ledger.Transfer(env.transferId, sender.accountId, toAccountId, amount, UserLedger, TransferCode);
      var description := "Transfer of " + NatToString(amount) + " cents to account " + NatToString(toAccountId);
      err := Submit(t, TxType.Transfer, sender.id, if toUserId != NilUuid then Some(toUserId) else None, description, env);
    }

    /**
     * The tail the three operations share: submit the one ledger transfer,
     * which fails on a call error or a result code; once the ledger has
     * applied it, build the completed audit record with the transfer ID's
     * text (and the recipient, when known) and insert it, ignoring an
     * insert failure.
     */
    method Submit(t: Ledger.Transfer, kind: TxType, user: Uuid, recipient: Option<Uuid>, description: string, env: Env)
      returns (err: Option<string>)
      requires Valid() && EnvOk(env) && Honest(env.reply, ledger.accounts, t)
      modifies ledger, repo
      ensures Valid()
      ensures env.reply.CallFailed? ==> err == Some("failed to create transfer: " + "failed to create transfers")
      ensures env.reply.Rejected? ==> err == Some("transfer failed with result code: " + NatToString(env.reply.code))
      ensures err.None? <==> env.reply.Applied?
      ensures err.Some? ==> ledger.accounts == old(ledger.accounts) && repo.rows == old(repo.rows)
      ensures err.None? ==>
        ledger.accounts == Post(old(ledger.accounts), t) &&
        repo.rows == AfterAudit(old(repo.rows), AuditRow(kind, user, recipient, t, env, description), env)
    {
      var results := ledger.CreateTransfers(t, env.reply);
      if results.Err? {
        return Some("failed to create transfer: " + results.error);
      }
      if |results.value| > 0 {
        return Some("transfer failed with result code: " + NatToString(results.value[0]));
      }
      var record := new TransactionRecord(
        Transaction(NilUuid, user, None, kind, t.amount, Completed, t.debitAccountId, t.creditAccountId,
                    "", description, 0, 0));
      record.SetTigerBeetleTransferID(env.transferImage);
      if recipient.Some? {
        record.recipientUserId := recipient;
      }
      var _ := repo.Create(record, env.recordId, env.now, env.auditOk);
      err := None;
    }

    /**
     * `GetHistory`: after clamping page and limit, the page of rows the
     * user sent or received, newest first, each with its recipient's
     * profile when the recipient exists.
     */
    method GetHistory(userId: string, page: int, limit: int, reachable: bool, dbOk: bool)
      returns (dtos: seq<TransactionDto>, err: Option<string>)
      requires Valid()
      ensures GetUserByID(userId, reachable).Err? ==> err == Some(GetUserByID(userId, reachable).error) && dtos == []
      ensures GetUserByID(userId, reachable).Ok? && !dbOk ==> err == Some("failed to retrieve transaction history") && dtos == []
      ensures err.None? <==> GetUserByID(userId, reachable).Ok? && dbOk
      ensures err.None? ==>
        var user := GetUserByID(userId, reachable).value;
        var rows := Page(repo.rows, Involving(user.id), ClampPage(page), ClampLimit(limit));
        |dtos| == |rows| &&
        forall i :: 0 <= i < |dtos| ==> dtos[i] == ToDto(rows[i], RecipientProfile(users, rows[i]))
      ensures err.None? ==> |dtos| <= ClampLimit(limit)
      ensures err.None? ==> forall i :: 0 <= i < |dtos| ==>
        RowOf(dtos[i]) in repo.rows &&
        (dtos[i].userId == GetUserByID(userId, reachable).value.id ||
         dtos[i].recipientUserId == Some(GetUserByID(userId, reachable).value.id))
    {
      var p, l := ClampPage(page), ClampLimit(limit);
      var found := GetUserByID(userId, reachable);
      if found.Err? {
        return [], Some(found.error);
      }
      var user := found.value;
      var fetched := GetAllByUserID(repo.rows, user.id, p, l, dbOk);
      if fetched.Err? {
        return [], Some("failed to retrieve transaction history");
      }
      var rows := fetched.value;
      PageShape(repo.rows, Involving(user.id), p, l);
      dtos := Enrich(rows);
      forall k | 0 <= k < |dtos|
        ensures RowOf(dtos[k]) in repo.rows && (dtos[k].userId == user.id || dtos[k].recipientUserId == Some(user.id))
      {
        assert RowOf(dtos[k]) == rows[k] && rows[k] in rows;
      }
      err := None;
    }

    /** The DTO conversion of `GetHistory`: each row with its recipient's profile. */
    method Enrich(rows: seq<Transaction>) returns (dtos: seq<TransactionDto>)
      ensures |dtos| == |rows|
      ensures forall i :: 0 <= i < |rows| ==> dtos[i] == ToDto(rows[i], RecipientProfile(users, rows[i]))
    {
      dtos := [];
      var i := 0;
      while i < |rows|
        invariant 0 <= i <= |rows| && |dtos| == i
        invariant forall k :: 0 <= k < i ==> dtos[k] == ToDto(rows[k], RecipientProfile(users, rows[k]))
      {
        dtos := dtos + [ToDto(rows[i], RecipientProfile(users, rows[i]))];
        i := i + 1;
      }
    }

    /** `GetHistoryCount`: how many rows the user sent or received. */
    function GetHistoryCount(userId: string, reachable: bool, dbOk: bool): (r: Result<nat, string>)
      reads this, repo
      ensures GetUserByID(userId, reachable).Err? ==> r == Err(GetUserByID(userId, reachable).error)
      ensures GetUserByID(userId, reachable).Ok? ==>
        r == CountAllByUserID(repo.rows, GetUserByID(userId, reachable).value.id, dbOk)
      ensures r.Ok? <==> GetUserByID(userId, reachable).Ok? && dbOk
      ensures r.Ok? ==>
        r.value == |Ordered(repo.rows, Involving(GetUserByID(userId, reachable).value.id))|
    {
      match GetUserByID(userId, reachable)
      case Err(e) => Err(e)
      case Ok(user) => CountAllByUserID(repo.rows, user.id, dbOk)
    }
  }

  /** A deposit or withdrawal never breaks the ledger's no-overdraft guarantee, and moves exactly `amount`. */
  lemma OperationMovesExactly(accounts: map<nat, Account>, t: Ledger.Transfer)
    requires NoOverdraft(accounts) && Postable(accounts, t)
    ensures NoOverdraft(Post(accounts, t))
    ensures Balance(Post(accounts, t)[t.debitAccountId]) == Balance(accounts[t.debitAccountId]) - t.amount
    ensures Balance(Post(accounts, t)[t.creditAccountId]) == Balance(accounts[t.creditAccountId]) + t.amount
  {
    PostKeepsNoOverdraft(accounts, t);
    PostMovesAmount(accounts, t);
  }
}
