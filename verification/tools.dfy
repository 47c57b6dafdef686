/**
 * The embedded tool registry the chat layer offers to the language model:
 * a fixed catalog of five banking tools, the handlers that validate each
 * tool's arguments before calling the money services, and the confirmation
 * gate that keeps the three money-moving tools from running until the user
 * has confirmed.
 *
 * The services a handler calls are not run here: a handler's outcome says
 * which service call it made, if any, and the service's answer to that
 * call is an input.
 */
module Tools {
  import opened Wrappers
  import opened Text
  import opened Numbers
  import Records

  /**
   * A decoded argument value. Arguments decoded from JSON carry numbers as
   * `float64`, kept here as exact reals; `Integer` is a Go `int` placed in
   * the map by Go code.
   */
  datatype Value = Number(x: real) | Integer(i: int) | Str(s: string) | Other

  type Args = map<string, Value>

  /** The structured data a tool returns. */
  datatype Data =
    | NoData
    | BalanceData(balanceCents: int)
    | HistoryData(transactions: seq<Records.TransactionDto>)

  datatype ToolResult = ToolResult(
    success: bool,
    data: Data,
    message: string,
    requiresConfirmation: bool,
    confirmationMessage: string,
    toolName: string,
    arguments: Args)

  /** A result carrying only success and a message. */
  function Reply(success: bool, message: string): ToolResult {
    ToolResult(success, NoData, message, false, "", "", map[])
  }

  /** The five handler functions a tool can be bound to. */
  datatype HandlerName = BalanceHandler | HistoryHandler | DepositHandler | WithdrawHandler | TransferHandler

  /** The property names of a tool's input schema and those it requires. */
  datatype Schema = Schema(properties: seq<string>, required: seq<string>)

  datatype Tool = Tool(
    name: string,
    description: string,
    inputSchema: Schema,
    handler: Option<HandlerName>,
    requiresConfirmation: bool)

  /** The function definition the language model is given for a tool. */
  datatype ToolDef = ToolDef(kind: string, name: string, description: string, parameters: Schema)

  /** The renderings that need floating point: `%.2f` of an amount, and `%q` of a string. */
  datatype Fmt = Fmt(usd: real -> string, quote: string -> string)

  // ---------------------------------------------------------------------
  // The catalog
  // ---------------------------------------------------------------------

  /** The tool names. */
  const BalanceTool := "get_balance"
  const HistoryTool := "get_transaction_history"
  const DepositTool := "deposit"
  const WithdrawTool := "withdraw"
  const TransferTool := "transfer"

  const CatalogNames: set<string> := {BalanceTool, HistoryTool, DepositTool, WithdrawTool, TransferTool}

  /** Argument keys and the texts handlers and the gate answer with. */
  const AmountKey := "amount"
  const ToAccountKey := "to_account_id"
  const LimitKey := "limit"
  const AskDeposit := "Do you want to deposit $"
  const AskWithdraw := "Do you want to withdraw $"
  const AskTransfer := "Do you want to transfer $"
  const ToAccount := " to account "
  const BalanceFailed := "Failed to retrieve balance: "
  const CurrentBalance := "Current balance: $"
  const HistoryFailed := "Failed to retrieve transaction history: "
  const NotANumber := "Invalid amount: must be a number"
  const NotANumberCause := "invalid amount type"
  const NotPositive := "Invalid amount: must be greater than zero"
  const NotPositiveCause := "amount must be positive"
  const DepositFailed := "Failed to deposit funds: "
  const Deposited := "Successfully deposited $"
  const WithdrawFailed := "Failed to withdraw funds: "
  const Withdrew := "Successfully withdrew $"
  const DestinationNotString := "Invalid destination account: must be a string"
  const DestinationNotStringCause := "invalid to_account_id type"
  const DestinationInvalid := "Invalid destination account ID: "
  const TransferFailed := "Failed to transfer funds: "
  const Transferred := "Successfully transferred $"
  const ToolNotFoundSuffix := "' not found"
  const NoHandlerSuffix := "' has no handler registered"
  const ConfirmationRequired := "Confirmation required for this operation"
  const ExecutionFailed := "Tool execution failed: "

  /** The tools that move money, and so wait for the user's confirmation. */
  const ConfirmedNames: set<string> := {DepositTool, WithdrawTool, TransferTool}

  /** What the language model is told about each tool. */
  const BalanceDescription := "Get the current account balance for the authenticated user. Returns balance in USD and cents."
  const HistoryDescription := "Retrieve recent transaction history for the authenticated user. Returns a paginated list of transactions."
  const DepositDescription := "Deposit money into the user's account. Requires confirmation before execution. Amount must be in USD (e.g., 100.50)."
  const WithdrawDescription := "Withdraw money from the user's account. Requires confirmation before execution. Amount must be in USD. Validates sufficient balance."
  const TransferDescription := "Transfer money to another account. Requires confirmation before execution. Validates destination account exists and sender has sufficient balance."

  /** The tools as registered, before any handler is bound. */
  function Catalog(): (c: map<string, Tool>)
    ensures c.Keys == CatalogNames
    ensures forall k :: k in c ==> c[k].name == k && c[k].handler.None?
    ensures forall k :: k in c ==> (c[k].requiresConfirmation <==> k in ConfirmedNames)
  {
    map[
      BalanceTool := Tool(
        BalanceTool,
        BalanceDescription,
        Schema([], []), None, false),
      HistoryTool := Tool(
        HistoryTool,
        HistoryDescription,
        Schema(["limit"], []), None, false),
      DepositTool := Tool(
        DepositTool,
        DepositDescription,
        Schema(["amount"], ["amount"]), None, true),
      WithdrawTool := Tool(
        WithdrawTool,
        WithdrawDescription,
        Schema(["amount"], ["amount"]), None, true),
      TransferTool := Tool(
        TransferTool,
        TransferDescription,
        Schema(["amount", "to_account_id"], ["amount", "to_account_id"]), None, true)
    ]
  }

  /** The handler each catalog tool is bound to at start-up. */
  function CanonicalHandler(name: string): Option<HandlerName> {
    if name == BalanceTool then Some(BalanceHandler)
    else if name == HistoryTool then Some(HistoryHandler)
    else if name == DepositTool then Some(DepositHandler)
    else if name == WithdrawTool then Some(WithdrawHandler)
    else if name == TransferTool then Some(TransferHandler)
    else None
  }

  /** The order in which start-up binds the handlers. */
  const BindingOrder: seq<string> := [BalanceTool, HistoryTool, DepositTool, WithdrawTool, TransferTool]

  lemma BindingOrderIsCatalog()
    ensures forall n :: n in BindingOrder <==> n in CatalogNames
    ensures forall n :: n in BindingOrder <==> CanonicalHandler(n).Some?
  {
  }

  /** The registry after the first `i` names of `names` are bound. */
  function BoundUpTo(t: map<string, Tool>, names: seq<string>, i: nat): map<string, Tool>
    requires i <= |names|
  {
    map k | k in t :: if k in names[..i] then t[k].(handler := CanonicalHandler(k)) else t[k]
  }

  lemma BoundNone(t: map<string, Tool>, names: seq<string>)
    ensures BoundUpTo(t, names, 0) == t
  {
  }

  lemma BoundStep(t: map<string, Tool>, names: seq<string>, i: nat)
    requires i < |names| && names[i] in t
    ensures var b := BoundUpTo(t, names, i);
      b[names[i] := b[names[i]].(handler := CanonicalHandler(names[i]))] == BoundUpTo(t, names, i + 1)
  {
    assert names[..i + 1] == names[..i] + [names[i]];
  }

  lemma BoundKeepsOrBinds(t: map<string, Tool>, names: seq<string>, i: nat)
    requires i <= |names|
    ensures var b := BoundUpTo(t, names, i);
      b.Keys == t.Keys &&
      forall k :: k in b ==> b[k] == t[k] || b[k] == t[k].(handler := CanonicalHandler(k))
  {
  }

  lemma BoundAllIsWire(t: map<string, Tool>)
    ensures BoundUpTo(t, BindingOrder, |BindingOrder|) == Wire(t)
  {
    BindingOrderIsCatalog();
    assert BindingOrder[..|BindingOrder|] == BindingOrder;
  }

  /** Only catalog names get a handler, and the money handlers go to exactly the confirmed tools. */
  lemma CanonicalHandlerSpec(name: string)
    ensures CanonicalHandler(name).Some? <==> name in CatalogNames
    ensures CanonicalHandler(name).Some? && MovesMoney(CanonicalHandler(name).value) <==> name in ConfirmedNames
  {
  }

  /** A registry with every catalog tool bound to its own handler. */
  function Wire(tools: map<string, Tool>): map<string, Tool> {
    map k | k in tools :: if CanonicalHandler(k).Some? then tools[k].(handler := CanonicalHandler(k)) else tools[k]
  }

  predicate MovesMoney(h: HandlerName) {
    h == DepositHandler || h == WithdrawHandler || h == TransferHandler
  }

  /** Every tool bound to a money-moving handler waits for confirmation. */
  predicate Guarded(tools: map<string, Tool>) {
    forall k :: k in tools && tools[k].handler.Some? && MovesMoney(tools[k].handler.value) ==> tools[k].requiresConfirmation
  }

  /** The registry as start-up leaves it: the five tools, each bound, and the money tools guarded. */
  lemma StartupRegistry()
    ensures Wire(Catalog()).Keys == CatalogNames
    ensures forall k :: k in Wire(Catalog()) ==> Wire(Catalog())[k].handler.Some? && Wire(Catalog())[k].name == k
    ensures Guarded(Wire(Catalog()))
  {
    var c := Catalog();
    var w := Wire(c);
    assert w.Keys == c.Keys;
    forall k | k in w
      ensures w[k].handler.Some? && w[k].name == k
      ensures MovesMoney(w[k].handler.value) ==> w[k].requiresConfirmation
    {
      assert w[k] == c[k].(handler := CanonicalHandler(k));
    }
  }

  // ---------------------------------------------------------------------
  // Confirmation messages
  // ---------------------------------------------------------------------

  const GenericConfirmation := "Please confirm this operation."

  function NumberArg(args: Args, key: string): Option<real> {
    if key in args && args[key].Number? then Some(args[key].x) else None
  }

  function StringArg(args: Args, key: string): Option<string> {
    if key in args && args[key].Str? then Some(args[key].s) else None
  }

  /**
   * `GetConfirmationMessage`: a specific question for deposit and withdraw
   * when `amount` is a number, and for transfer when also `to_account_id`
   * is a string; the generic request otherwise.
   */
  function GetConfirmationMessage(name: string, args: Args, usd: real -> string): (m: string)
    ensures m != ""
    ensures name !in ConfirmedNames ==> m == GenericConfirmation
    ensures name == DepositTool && NumberArg(args, AmountKey).Some? ==>
      m == AskDeposit + usd(NumberArg(args, AmountKey).value) + "?"
    ensures name == WithdrawTool && NumberArg(args, AmountKey).Some? ==>
      m == AskWithdraw + usd(NumberArg(args, AmountKey).value) + "?"
    ensures name == TransferTool && NumberArg(args, AmountKey).Some? && StringArg(args, ToAccountKey).Some? ==>
      m == AskTransfer + usd(NumberArg(args, AmountKey).value) + ToAccount +
           StringArg(args, ToAccountKey).value + "?"
    ensures NumberArg(args, AmountKey).None? ==> m == GenericConfirmation
    ensures name == TransferTool && StringArg(args, ToAccountKey).None? ==> m == GenericConfirmation
  {
    var amount := NumberArg(args, AmountKey);
    if name == DepositTool && amount.Some? then AskDeposit + usd(amount.value) + "?"
    else if name == WithdrawTool && amount.Some? then AskWithdraw + usd(amount.value) + "?"
    else if name == TransferTool && amount.Some? && StringArg(args, ToAccountKey).Some? then
      AskTransfer + usd(amount.value) + ToAccount + StringArg(args, ToAccountKey).value + "?"
    else GenericConfirmation
  }

  // ---------------------------------------------------------------------
  // Handlers: argument checks, then one service call
  // ---------------------------------------------------------------------

  /** A call a handler makes to the account or transaction service. */
  datatype ServiceCall =
    | BalanceCall(userId: string)
    | HistoryCall(userId: string, page: int, limit: int)
    | DepositCall(userId: string, cents: int)
    | WithdrawCall(userId: string, cents: int)
    | TransferCall(userId: string, toAccountId: nat, cents: int)

  predicate IsMoneyCall(c: ServiceCall) {
    c.DepositCall? || c.WithdrawCall? || c.TransferCall?
  }

  /** What the services answer to the call a handler makes. */
  datatype Answers = Answers(
    balance: Result<int, string>,
    history: Result<seq<Records.TransactionDto>, string>,
    money: Option<string>)

  /** A handler's result, its error, and the service call it made, if any. */
  datatype Outcome = Outcome(result: ToolResult, err: Option<string>, call: Option<ServiceCall>)

  /** Go's conversion of a float to an integer: truncation toward zero. */
  function Trunc(x: real): (n: int)
    ensures x >= 0.0 ==> n as real <= x < n as real + 1.0
    ensures x < 0.0 ==> n as real - 1.0 < x <= n as real
  {
    if x >= 0.0 then x.Floor else -((-x).Floor)
  }

  /** Dollars to cents, truncated. */
  function Cents(usd: real): int {
    Trunc(usd * 100.0)
  }

  /** The history limit asked for: a number, an integer or an integer string; 10 otherwise. */
  function RequestedLimit(args: Args): (limit: int)
    ensures LimitKey !in args ==> limit == 10
    ensures LimitKey in args && args[LimitKey].Number? ==> limit == Trunc(args[LimitKey].x)
    ensures LimitKey in args && args[LimitKey].Integer? ==> limit == args[LimitKey].i
    ensures LimitKey in args && args[LimitKey].Str? ==>
      limit == if Atoi(args[LimitKey].s).Some? then Atoi(args[LimitKey].s).value else 10
    ensures LimitKey in args && args[LimitKey].Other? ==> limit == 10
  {
    if LimitKey !in args then 10
    else
      match args[LimitKey]
      case Number(x) => Trunc(x)
      case Integer(i) => i
      case Str(s) => if Atoi(s).Some? then Atoi(s).value else 10
      case Other => 10
  }

  /** The limit used: the one asked for, clamped into [1, 100]. */
  function HistoryLimit(args: Args): (limit: int)
    ensures 1 <= limit <= 100
    ensures 1 <= RequestedLimit(args) <= 100 ==> limit == RequestedLimit(args)
    ensures RequestedLimit(args) < 1 ==> limit == 1
    ensures RequestedLimit(args) > 100 ==> limit == 100
  {
    var limit := RequestedLimit(args);
    if limit < 1 then 1 else if limit > 100 then 100 else limit
  }

  function HandleGetBalance(userId: string, answers: Answers, usd: real -> string): (o: Outcome)
    ensures o.call == Some(BalanceCall(userId))
    ensures o.err.None? <==> answers.balance.Ok?
    ensures o.result.success <==> o.err.None?
    ensures answers.balance.Err? ==> o.err == Some(answers.balance.error)
    ensures answers.balance.Ok? ==> o.result.data == BalanceData(answers.balance.value)
  {
    match answers.balance
    case Err(e) => Outcome(Reply(false, BalanceFailed + e), Some(e), Some(BalanceCall(userId)))
    case Ok(cents) =>
      var r := ToolResult(true, BalanceData(cents), CurrentBalance + usd(cents as real / 100.0), false, "", "", map[]);
      Outcome(r, None, Some(BalanceCall(userId)))
  }

  /** The history tool always asks for page 1, with the limit clamped into [1, 100]. */
  function HandleGetHistory(userId: string, args: Args, answers: Answers): (o: Outcome)
    ensures o.call.Some? && o.call.value.HistoryCall?
    ensures o.call.value.userId == userId && o.call.value.page == 1 && 1 <= o.call.value.limit <= 100
    ensures o.call.value.limit == HistoryLimit(args)
    ensures o.err.None? <==> answers.history.Ok?
    ensures o.result.success <==> o.err.None?
    ensures answers.history.Err? ==> o.err == Some(answers.history.error)
    ensures answers.history.Err? ==> o.result.message == HistoryFailed + answers.history.error
    ensures answers.history.Ok? ==> o.result.data == HistoryData(answers.history.value)
  {
    var call := HistoryCall(userId, 1, HistoryLimit(args));
    match answers.history
    case Err(e) => Outcome(Reply(false, HistoryFailed + e), Some(e), Some(call))
    case Ok(rows) =>
      var r := ToolResult(true, HistoryData(rows), "Retrieved " + NatToString(|rows|) + " transactions", false, "", "", map[]);
      Outcome(r, None, Some(call))
  }

  /**
   * The amount checks of the money tools: a number, then positive. An
   * error carries the result message and the returned error.
   */
  function AmountArg(args: Args): (r: Result<real, (string, string)>)
    ensures r.Ok? <==> NumberArg(args, AmountKey).Some? && NumberArg(args, AmountKey).value > 0.0
    ensures r.Ok? ==> r.value == NumberArg(args, AmountKey).value
    ensures NumberArg(args, AmountKey).None? ==> r == Err((NotANumber, NotANumberCause))
  {
    match NumberArg(args, AmountKey)
    case None => Err((NotANumber, NotANumberCause))
    case Some(x) =>
      if x <= 0.0 then Err((NotPositive, NotPositiveCause)) else Ok(x)
  }

  /** The end of every money tool: the service's error is the tool's error, with a prefix on the message. */
  function AfterMoneyCall(call: ServiceCall, answers: Answers, failure: string, success: string): (o: Outcome)
    ensures o.call == Some(call)
    ensures o.err == answers.money
    ensures o.result.success <==> answers.money.None?
    ensures answers.money.Some? ==> o.result.message == failure + answers.money.value
  {
    match answers.money
    case Some(e) => Outcome(Reply(false, failure + e), Some(e), Some(call))
    case None => Outcome(Reply(true, success), None, Some(call))
  }

  function HandleDeposit(userId: string, args: Args, answers: Answers, usd: real -> string): (o: Outcome)
    ensures o.call.Some? <==> NumberArg(args, AmountKey).Some? && NumberArg(args, AmountKey).value > 0.0
    ensures o.call.Some? ==> o.call.value == DepositCall(userId, Cents(NumberArg(args, AmountKey).value))
    ensures o.result.success <==> o.err.None?
    ensures o.err.None? <==> o.call.Some? && answers.money.None?
    ensures o.call.Some? ==> o.err == answers.money
  {
    match AmountArg(args)
    case Err(e) => Outcome(Reply(false, e.0), Some(e.1), None)
    case Ok(x) =>
      AfterMoneyCall(DepositCall(userId, Cents(x)), answers, DepositFailed, Deposited + usd(x))
  }

  function HandleWithdraw(userId: string, args: Args, answers: Answers, usd: real -> string): (o: Outcome)
    ensures o.call.Some? <==> NumberArg(args, AmountKey).Some? && NumberArg(args, AmountKey).value > 0.0
    ensures o.call.Some? ==> o.call.value == WithdrawCall(userId, Cents(NumberArg(args, AmountKey).value))
    ensures o.result.success <==> o.err.None?
    ensures o.err.None? <==> o.call.Some? && answers.money.None?
    ensures o.call.Some? ==> o.err == answers.money
  {
    match AmountArg(args)
    case Err(e) => Outcome(Reply(false, e.0), Some(e.1), None)
    case Ok(x) =>
      AfterMoneyCall(WithdrawCall(userId, Cents(x)), answers, WithdrawFailed, Withdrew + usd(x))
  }

  /** `strconv.NumError.Error()` for a failed `ParseUint`. */
  function ParseUintError(s: string, e: NumErr, quote: string -> string): string {
    "strconv.ParseUint: parsing " + quote(s) + ": " + (if e == ErrSyntax then "invalid syntax" else "value out of range")
  }

  /**
   * The transfer tool checks the amount first, then that `to_account_id`
   * is a string holding a base-10 64-bit unsigned number.
   */
  function HandleTransfer(userId: string, args: Args, answers: Answers, fmt: Fmt): (o: Outcome)
    ensures o.call.Some? <==>
      AmountArg(args).Ok? && StringArg(args, ToAccountKey).Some? && ParseUint(StringArg(args, ToAccountKey).value).Ok?
    ensures o.call.Some? ==>
      o.call.value == TransferCall(userId, ParseUint(StringArg(args, ToAccountKey).value).value, Cents(AmountArg(args).value))
    ensures AmountArg(args).Err? ==> o.result == Reply(false, AmountArg(args).error.0)
    ensures AmountArg(args).Ok? && StringArg(args, ToAccountKey).None? ==>
      o.result == Reply(false, DestinationNotString)
    ensures o.result.success <==> o.err.None?
    ensures o.err.None? <==> o.call.Some? && answers.money.None?
    ensures o.call.Some? ==> o.err == answers.money
  {
    match AmountArg(args)
    case Err(e) => Outcome(Reply(false, e.0), Some(e.1), None)
    case Ok(x) =>
      match StringArg(args, ToAccountKey)
      case None => Outcome(Reply(false, DestinationNotString), Some(DestinationNotStringCause), None)
      case Some(text) =>
        match ParseUint(text)
        case Err(k) =>
          var e := ParseUintError(text, k, fmt.quote);
          Outcome(Reply(false, DestinationInvalid + e), Some(e), None)
        case Ok(to) =>
          AfterMoneyCall(TransferCall(userId, to, Cents(x)), answers, TransferFailed,
            Transferred + fmt.usd(x) + ToAccount + text)
  }

  /** Runs the handler a tool is bound to. Only the three money handlers call a money service. */
  function RunHandler(h: HandlerName, userId: string, args: Args, answers: Answers, fmt: Fmt): (o: Outcome)
    ensures o.call.Some? && IsMoneyCall(o.call.value) ==> MovesMoney(h)
    ensures o.result.success <==> o.err.None?
  {
    match h
    case BalanceHandler => HandleGetBalance(userId, answers, fmt.usd)
    case HistoryHandler => HandleGetHistory(userId, args, answers)
    case DepositHandler => HandleDeposit(userId, args, answers, fmt.usd)
    case WithdrawHandler => HandleWithdraw(userId, args, answers, fmt.usd)
    case TransferHandler => HandleTransfer(userId, args, answers, fmt)
  }

  /** A handler given an account ID that `%d` printed passes it on unchanged. */
  lemma TransferToolKeepsAccountId(userId: string, x: real, account: nat, answers: Answers, fmt: Fmt)
    requires x > 0.0 && account <= MaxUint64
    ensures var args := map[AmountKey := Number(x), ToAccountKey := Str(NatToString(account))];
      HandleTransfer(userId, args, answers, fmt).call == Some(TransferCall(userId, account, Cents(x)))
  {
    ParseUintRoundTrip(account);
  }

  // ---------------------------------------------------------------------
  // The registry and its gate
  // ---------------------------------------------------------------------

  /** What `ExecuteTool` returns, which handler it ran, and the service call that handler made. */
  datatype Execution = Execution(result: ToolResult, err: Option<string>, ran: Option<HandlerName>, call: Option<ServiceCall>)

  const EmptyResult := ToolResult(false, NoData, "", false, "", "", map[])

  class MCPServer {
    var tools: map<string, Tool>

    /** Each tool is registered under its own name. */
    ghost predicate Valid()
      reads this
    {
      forall k :: k in tools ==> tools[k].name == k
    }

    /** `NewMCPServer`: registers the catalog, then binds every handler. */
    constructor ()
      ensures tools == Wire(Catalog())
      ensures Valid() && Guarded(tools)
      ensures forall k :: k in tools ==> tools[k].handler.Some?
    {
      tools := map[];
      new;
      RegisterTools();
      assert tools == Catalog();
      var err := InitializeToolHandlers();
      assert err.None?;
      StartupRegistry();
    }

    /** `registerTools`: adds the five catalog tools, none of them bound yet. */
    method RegisterTools()
      modifies this
      ensures tools == old(tools) + Catalog()
    {
      tools := tools + Catalog();
    }

    /** `SetToolHandler`: binds a registered tool; an unknown name is an error and changes nothing. */
    method SetToolHandler(toolName: string, handler: Option<HandlerName>) returns (err: Option<string>)
      modifies this
      ensures toolName !in old(tools) ==> err == Some("tool '" + toolName + ToolNotFoundSuffix) && tools == old(tools)
      ensures toolName in old(tools) ==>
        err.None? && tools == old(tools)[toolName := old(tools)[toolName].(handler := handler)]
    {
      if toolName !in tools {
        return Some("tool '" + toolName + ToolNotFoundSuffix);
      }
      tools := tools[toolName := tools[toolName].(handler := handler)];
      err := None;
    }

    /**
     * `initializeToolHandlers`: binds the five catalog tools in order and
     * stops at the first that is not registered.
     */
    method InitializeToolHandlers() returns (err: Option<string>)
      modifies this
      ensures tools.Keys == old(tools).Keys
      ensures err.None? <==> CatalogNames <= old(tools).Keys
      ensures err.None? ==> tools == Wire(old(tools))
      ensures forall k :: k in tools ==>
        tools[k] == old(tools)[k] || tools[k] == old(tools)[k].(handler := CanonicalHandler(k))
    {
      var names := BindingOrder;
      var i := 0;
      BoundNone(tools, names);
      while i < |names|
        invariant 0 <= i <= |names|
        invariant forall j :: 0 <= j < i ==> names[j] in old(tools)
        invariant tools == BoundUpTo(old(tools), names, i)
      {
        var e := SetToolHandler(names[i], CanonicalHandler(names[i]));
        if e.Some? {
          BindingOrderIsCatalog();
          BoundKeepsOrBinds(old(tools), names, i);
          return Some("failed to register " + names[i] + " handler: " + e.value);
        }
        BoundStep(old(tools), names, i);
        i := i + 1;
      }
      BoundAllIsWire(old(tools));
      BoundKeepsOrBinds(old(tools), names, i);
      BindingOrderIsCatalog();
      assert forall n :: n in names ==> n in old(tools);
      err := None;
    }

    /**
     * `GetToolDefinitions`: one "function" definition per registered tool,
     * carrying its name, description and schema, in no particular order.
     */
    method GetToolDefinitions() returns (defs: seq<ToolDef>)
      requires Valid()
      ensures |defs| == |tools|
      ensures forall i :: 0 <= i < |defs| ==> defs[i].name in tools && defs[i] == DefOf(tools[defs[i].name])
      ensures forall i, j :: 0 <= i < j < |defs| ==> defs[i].name != defs[j].name
      ensures forall k :: k in tools ==> Listed(defs, k)
    {
      var reg := tools;
      defs := [];
      var remaining := reg.Keys;
      while remaining != {}
        invariant DefsSoFar(reg, remaining, defs)
        decreases |remaining|
      {
        var k :| k in remaining;
        DefsStep(reg, remaining, defs, k);
        defs := defs + [DefOf(reg[k])];
        remaining := remaining - {k};
      }
    }

    /**
     * `ExecuteTool`: an unknown tool or one without a handler is an error;
     * a tool that needs confirmation and has not got it is answered with a
     * confirmation request and its handler does not run; otherwise the
     * handler runs once and its error, if any, replaces its result.
     */
    function ExecuteTool(toolName: string, userId: string, args: Args, confirmed: bool, answers: Answers, fmt: Fmt): (e: Execution)
      reads this
      ensures toolName !in tools ==> e == Execution(EmptyResult, Some("tool '" + toolName + ToolNotFoundSuffix), None, None)
      ensures toolName in tools && tools[toolName].handler.None? ==>
        e == Execution(EmptyResult, Some("tool '" + toolName + NoHandlerSuffix), None, None)
      ensures e.ran.Some? <==>
        toolName in tools && tools[toolName].handler.Some? && (!tools[toolName].requiresConfirmation || confirmed)
      ensures toolName in tools && tools[toolName].handler.Some? && tools[toolName].requiresConfirmation && !confirmed ==>
        e.err.None? && e.call.None? &&
        e.result == ToolResult(false, NoData, ConfirmationRequired, true,
                               GetConfirmationMessage(tools[toolName].name, args, fmt.usd), toolName, args)
      ensures e.ran.Some? ==>
        e.ran == tools[toolName].handler &&
        var o := RunHandler(e.ran.value, userId, args, answers, fmt);
        e.call == o.call && e.err == o.err &&
        e.result == if o.err.None? then o.result else Reply(false, ExecutionFailed + o.err.value)
      ensures e.ran.None? ==> e.call.None?
    {
      if toolName !in tools then Execution(EmptyResult, Some("tool '" + toolName + ToolNotFoundSuffix), None, None)
      else
        var tool := tools[toolName];
        match tool.handler
        case None => Execution(EmptyResult, Some("tool '" + toolName + NoHandlerSuffix), None, None)
        case Some(h) =>
          if tool.requiresConfirmation && !confirmed then
            var ask := ToolResult(false, NoData, ConfirmationRequired, true,
                                  GetConfirmationMessage(tool.name, args, fmt.usd), toolName, args);
            Execution(ask, None, None, None)
          else
            var o := RunHandler(h, userId, args, answers, fmt);
            if o.err.Some? then Execution(Reply(false, ExecutionFailed + o.err.value), o.err, Some(h), o.call)
            else Execution(o.result, None, Some(h), o.call)
    }
  }

  function DefOf(t: Tool): ToolDef {
    ToolDef("function", t.name, t.description, t.inputSchema)
  }

  /** Some definition in `defs` is for the tool named `name`. */
  predicate Listed(defs: seq<ToolDef>, name: string) {
    exists i :: 0 <= i < |defs| && defs[i].name == name
  }

  /** The loop state of `GetToolDefinitions`: the tools not in `remaining` are listed, each once. */
  predicate DefsSoFar(reg: map<string, Tool>, remaining: set<string>, defs: seq<ToolDef>) {
    remaining <= reg.Keys &&
    |defs| + |remaining| == |reg| &&
    (forall i :: 0 <= i < |defs| ==>
      defs[i].name in reg && defs[i].name !in remaining && defs[i] == DefOf(reg[defs[i].name])) &&
    (forall i, j :: 0 <= i < j < |defs| ==> defs[i].name != defs[j].name) &&
    (forall k :: k in reg && k !in remaining ==> Listed(defs, k))
  }

  lemma DefsStep(reg: map<string, Tool>, remaining: set<string>, defs: seq<ToolDef>, k: string)
    requires forall n :: n in reg ==> reg[n].name == n
    requires DefsSoFar(reg, remaining, defs) && k in remaining
    ensures DefsSoFar(reg, remaining - {k}, defs + [DefOf(reg[k])])
    ensures |remaining - {k}| < |remaining|
  {
    ListedGrows(defs, DefOf(reg[k]));
    assert |remaining - {k}| == |remaining| - 1;
  }

  lemma ListedGrows(defs: seq<ToolDef>, d: ToolDef)
    ensures forall name :: Listed(defs, name) ==> Listed(defs + [d], name)
    ensures Listed(defs + [d], d.name)
  {
    forall name | Listed(defs, name)
      ensures Listed(defs + [d], name)
    {
      var i :| 0 <= i < |defs| && defs[i].name == name;
      assert (defs + [d])[i] == defs[i];
    }
    assert (defs + [d])[|defs|] == d;
  }

  /** While the registry is guarded, no unconfirmed execution reaches a money service. */
  lemma UnconfirmedNeverMovesMoney(s: MCPServer, toolName: string, userId: string, args: Args, answers: Answers, fmt: Fmt)
    requires Guarded(s.tools)
    ensures var e := s.ExecuteTool(toolName, userId, args, false, answers, fmt);
      e.call.Some? ==> !IsMoneyCall(e.call.value)
  {
  }
}
