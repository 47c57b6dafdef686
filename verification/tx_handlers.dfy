/**
 * The decision rules of the money-movement HTTP handlers: authentication
 * and payload checks before the service runs, the deposit cap, how a
 * service error becomes a status code, and the defaulting of the history
 * query's page and limit.
 */
module TxHandlers {
  import opened Wrappers
  import opened Text
  import Transactions

  datatype Response = Response(status: nat, message: string)

  const StatusOK: nat := 200
  const StatusBadRequest: nat := 400
  const StatusUnauthorized: nat := 401
  const StatusNotFound: nat := 404
  const StatusInternalServerError: nat := 500

  /** The largest deposit accepted, in cents. */
  const MaxDepositCents: int := 1000000000

  const InsufficientFunds := "insufficient funds"

  /** A service call the handler makes: the user and the amount in cents. */
  datatype Call = Call(userId: string, amount: int)

  /**
   * The checks every money handler makes before calling the service: an
   * authenticated user (401), and a payload whose amount binds, which
   * requires it to be present and positive (400). `amount` is the decoded
   * JSON amount, `None` when the body does not decode. The deposit handler
   * adds a cap and the transfer handler a destination (`DepositGate`,
   * `TransferGate`).
   */
  function Gate(userId: Option<string>, amount: Option<int>): (r: Result<Call, Response>)
    ensures userId.None? ==> r == Err(Response(StatusUnauthorized, "User not authenticated"))
    ensures userId.Some? && (amount.None? || amount.value <= 0) ==>
      r == Err(Response(StatusBadRequest, "Invalid request payload"))
    ensures r.Ok? <==> userId.Some? && amount.Some? && amount.value > 0
    ensures r.Ok? ==> r.value == Call(userId.value, amount.value)
  {
    if userId.None? then Err(Response(StatusUnauthorized, "User not authenticated"))
    else if amount.None? || amount.value <= 0 then Err(Response(StatusBadRequest, "Invalid request payload"))
    else Ok(Call(userId.value, amount.value))
  }

  /** The deposit handler adds a cap of 1,000,000,000 cents to the common checks. */
  function DepositGate(userId: Option<string>, amount: Option<int>): (r: Result<Call, Response>)
    ensures userId.None? ==> r == Err(Response(StatusUnauthorized, "User not authenticated"))
    ensures r.Ok? <==> userId.Some? && amount.Some? && 0 < amount.value <= MaxDepositCents
    ensures userId.Some? && amount.Some? && amount.value > MaxDepositCents ==>
      r == Err(Response(StatusBadRequest, "Deposit amount too large"))
  {
    match Gate(userId, amount)
    case Err(resp) => Err(resp)
    case Ok(call) =>
      if call.amount > MaxDepositCents then Err(Response(StatusBadRequest, "Deposit amount too large")) else Ok(call)
  }

  /** A transfer call: the user, the destination account and the amount in cents. */
  datatype TransferCall = TransferCall(userId: string, toAccountId: nat, amount: int)

  /**
   * The transfer handler's checks: the common ones, then a destination that
   * binds. `binding:"required"` refuses an absent field and the zero value
   * alike, so a missing or zero `to_account_id` is a 400 before the service
   * runs. `toAccountId` is the decoded field, `None` when it is absent.
   */
  function TransferGate(userId: Option<string>, toAccountId: Option<nat>, amount: Option<int>)
    : (r: Result<TransferCall, Response>)
    ensures userId.None? ==> r == Err(Response(StatusUnauthorized, "User not authenticated"))
    ensures r.Ok? <==> userId.Some? && amount.Some? && amount.value > 0 && toAccountId.Some? && toAccountId.value != 0
    ensures userId.Some? && r.Err? ==> r == Err(Response(StatusBadRequest, "Invalid request payload"))
    ensures r.Ok? ==> r.value == TransferCall(userId.value, toAccountId.value, amount.value)
  {
    match Gate(userId, amount)
    case Err(resp) => Err(resp)
    case Ok(call) =>
      if toAccountId.None? || toAccountId.value == 0 then Err(Response(StatusBadRequest, "Invalid request payload"))
      else Ok(TransferCall(call.userId, toAccountId.value, call.amount))
  }

  /** Any deposit error is a 500 with a fixed message. */
  function DepositReply(err: Option<string>): (r: Response)
    ensures err.None? <==> r.status == StatusOK
    ensures err.Some? ==> r == Response(StatusInternalServerError, "Failed to process deposit")
  {
    if err.None? then Response(StatusOK, "Deposit completed successfully")
    else Response(StatusInternalServerError, "Failed to process deposit")
  }

  /**
   * A withdrawal error that is exactly "insufficient funds", or longer and
   * starting with it, is a 400 carrying the error; any other error is a 500.
   */
  function WithdrawReply(err: Option<string>): (r: Response)
    ensures err.None? <==> r.status == StatusOK
    ensures err.Some? && HasPrefix(err.value, InsufficientFunds) ==> r == Response(StatusBadRequest, err.value)
    ensures err.Some? && !HasPrefix(err.value, InsufficientFunds) ==>
      r == Response(StatusInternalServerError, "Failed to process withdrawal")
  {
    if err.None? then Response(StatusOK, "Withdrawal completed successfully")
    else
      var e := err.value;
      if e == InsufficientFunds || (|e| > 18 && e[..18] == InsufficientFunds) then Response(StatusBadRequest, e)
      else Response(StatusInternalServerError, "Failed to process withdrawal")
  }

  /**
   * A transfer error longer than and starting with "insufficient funds" is
   * a 400 carrying the error; exactly "destination account not found" is a
   * 404; anything else, the bare "insufficient funds" included, is a 500.
   */
  function TransferReply(err: Option<string>): (r: Response)
    ensures err.None? <==> r.status == StatusOK
    ensures err.Some? && |err.value| > |InsufficientFunds| && HasPrefix(err.value, InsufficientFunds) ==>
      r == Response(StatusBadRequest, err.value)
    ensures err == Some("destination account not found") ==> r == Response(StatusNotFound, "Destination account does not exist")
    ensures err == Some(InsufficientFunds) ==> r.status == StatusInternalServerError
    ensures r.status == StatusInternalServerError <==>
      err.Some? && !(|err.value| > |InsufficientFunds| && HasPrefix(err.value, InsufficientFunds)) &&
      err.value != "destination account not found"
  {
    if err.None? then Response(StatusOK, "Transfer completed successfully")
    else
      var e := err.value;
      assert |e| > 18 && e[..18] == InsufficientFunds ==> e[0] == InsufficientFunds[0];
      if |e| > 18 && e[..18] == InsufficientFunds then Response(StatusBadRequest, e)
      else if e == "destination account not found" then Response(StatusNotFound, "Destination account does not exist")
      else Response(StatusInternalServerError, "Failed to process transfer")
  }

  /**
   * The service's insufficient-funds errors reach the client as 400 from
   * both handlers, whatever the balance and amount.
   */
  lemma InsufficientFundsIsBadRequest(balance: int, amount: nat)
    ensures var e := Transactions.InsufficientFundsError(balance, amount);
      WithdrawReply(Some(e)) == Response(StatusBadRequest, e) &&
      TransferReply(Some(e)) == Response(StatusBadRequest, e)
  {
    var e := Transactions.InsufficientFundsError(balance, amount);
    assert e[..18] == InsufficientFunds;
  }

  /**
   * `GetHistory`'s page: absent means 1; a value that does not scan as an
   * integer, or is below 1, also means 1. `scan` is `%d` scanning.
   */
  function PageParam(query: string, scan: string -> Option<int>): (page: int)
    ensures page >= 1
    ensures query != "" && scan(query).Some? && scan(query).value >= 1 ==> page == scan(query).value
    ensures query == "" || scan(query).None? ==> page == 1
    ensures query != "" && scan(query).Some? && scan(query).value < 1 ==> page == 1
  {
    if query == "" then 1
    else
      match scan(query)
      case None => 1
      case Some(v) => if v < 1 then 1 else v
  }

  /** `GetHistory`'s limit: absent, unscannable or outside [1, 100] means 10. */
  function LimitParam(query: string, scan: string -> Option<int>): (limit: int)
    ensures 1 <= limit <= 100
    ensures query != "" && scan(query).Some? && 1 <= scan(query).value <= 100 ==> limit == scan(query).value
    ensures query == "" || scan(query).None? || scan(query).value < 1 || scan(query).value > 100 ==> limit == 10
  {
    if query == "" then 10
    else
      match scan(query)
      case None => 10
      case Some(v) => if v < 1 || v > 100 then 10 else v
  }

  /**
   * The handler's page and limit are already in the service's ranges, so
   * the service's own clamping leaves them as they are.
   */
  lemma HandlerParamsSurviveClamping(pageQuery: string, limitQuery: string, scan: string -> Option<int>)
    ensures Transactions.ClampPage(PageParam(pageQuery, scan)) == PageParam(pageQuery, scan)
    ensures Transactions.ClampLimit(LimitParam(limitQuery, scan)) == LimitParam(limitQuery, scan)
  {
  }

  /** A history request without an authenticated user is refused before anything is read. */
  function HistoryGate(userId: Option<string>, pageQuery: string, limitQuery: string, scan: string -> Option<int>)
    : (r: Result<(string, int, int), Response>)
    ensures userId.None? <==> r.Err?
    ensures r.Err? ==> r.error == Response(StatusUnauthorized, "User not authenticated")
    ensures r.Ok? ==> r.value.0 == userId.value && r.value.1 >= 1 && 1 <= r.value.2 <= 100
  {
    if userId.None? then Err(Response(StatusUnauthorized, "User not authenticated"))
    else Ok((userId.value, PageParam(pageQuery, scan), LimitParam(limitQuery, scan)))
  }

  /** Any history error is a 500 with a fixed message. */
  function HistoryReply(err: Option<string>): (r: Response)
    ensures err.None? <==> r.status == StatusOK
    ensures err.Some? ==> r == Response(StatusInternalServerError, "Failed to retrieve transaction history")
  {
    if err.None? then Response(StatusOK, "Transaction history retrieved successfully")
    else Response(StatusInternalServerError, "Failed to retrieve transaction history")
  }
}
