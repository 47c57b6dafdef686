# Banking system: money movement and the confirmation-gated assistant

This project models, in Dafny, the core of a small banking back end. It
covers:

- **The money-movement service.** Deposit, withdraw and transfer against
  a double-entry ledger (TigerBeetle). Each operation is followed by a
  best-effort audit record in a SQL table, and the transaction history is
  read back from that table.
- **The HTTP handlers in front of the service.**
- **The chat assistant.** A language model asks a tool registry to run
  banking tools. Money-moving tools answer an unconfirmed request with a
  confirmation prompt, and only a separate, explicit confirmation runs
  them.
- **A deterministic intent parser.** It reads the operation, the amount,
  the destination account and a history length from a message.

The ledger is a map of accounts, and transfers are posted to it. The
audit table is a sequence of rows. Everything the program asks of the
outside world is an input to the model: whether the database answers,
what the ledger replies, random IDs, the clock, DNS answers, the
completion endpoint's answers and JSON decoding. Stateful parts are
classes:

- `Records.TransactionRecord`
- `AuditStore.Repository`
- `Ledger.Client`
- `Transactions.Service`
- `Tools.MCPServer`
- `ChatClient.AIClient`
- `ChatService.Service`

Their methods state the whole new state. The pure parts are functions
with lemmas about them.

Main results:

- **Operations are all-or-nothing.**
  - A failed operation leaves the ledger and the audit table unchanged.
  - A successful one posts exactly one transfer of `amount` and appends
    its audit row when the write succeeds.
  - `Transactions.Service.Deposit`, `Withdraw` and `Transfer` state these.
- **The ledger.**
  - A posted transfer moves exactly `amount` between two accounts.
  - The ledger never lets a user account be overdrawn
    (`Ledger.PostMovesAmount`, `Ledger.PostKeepsNoOverdraft`).
- **Confirmation gate.**
  - With the registry as built at start-up, no unconfirmed execution,
    and therefore no chat turn, reaches a money service
    (`Tools.UnconfirmedNeverMovesMoney`, `ChatClient.ChatTurnNeverMovesMoney`,
    `ChatService.MessageNeverMovesMoney`).
  - Confirming what a turn asked to confirm runs that tool's handler
    (`ChatService.ConfirmingRunsTheRequestedTool`).
- **Round trips.**
  - Base16 transfer IDs (`Records.DecodeEncode`, `Records.TransferIdRoundTrip`).
  - `strconv.ParseUint` and `strconv.Atoi` against `%d` (`Numbers.ParseUintRoundTrip`,
    `Numbers.AtoiRoundTrip`).
  - An account number written in a transfer request comes back
    unchanged (`Tools.TransferToolKeepsAccountId`, `Intents.AccountIdRoundTrip`).
- **Paging.** Pages of the history are adjacent slices of the newest-first
  result while page × limit fits in an int64, and the count agrees with them
  (`AuditStore.PagesAreContiguous`, `AuditStore.CountBoundsPages`). The
  offset is computed in 64-bit arithmetic as the program does, so a huge
  page number wraps back to the first page (`AuditStore.HugePageWrapsToFirst`).

Modules are one per source file, plus three shared ones:

- `Wrappers` for `Option`/`Result`.
- `Text` for `%d`, prefix tests and `strings.TrimSpace`.
- `Numbers` for `strconv.ParseUint` and `strconv.Atoi`.

## Model

| member | source | states |
|---|---|---|
| Numbers.ParseUint | backend/internal/chat/mcp_tools.go:208 | `strconv.ParseUint(s, 10, 64)`: a success is at most 2^64 − 1 |
| Numbers.ParseUintAccepts | backend/internal/chat/intent.go:146 | ParseUint succeeds exactly on non-empty digit strings whose value fits in 64 bits, and then yields that value |
| Numbers.ScanUintValue | backend/internal/chat/mcp_tools.go:208-215 | on digit strings the left-to-right scan gives the decimal value, or a range error exactly when the value is too large |
| Numbers.ScanUintRejectsNonDigit | backend/internal/chat/mcp_tools.go:208-215 | a string with any non-digit never parses |
| Numbers.ParseUintRoundTrip | backend/internal/chat/mcp_tools.go:208 | every 64-bit unsigned number survives `%d` followed by ParseUint |
| Numbers.Atoi | backend/internal/chat/intent.go:161 | `strconv.Atoi`: a success lies in the int64 range and starts with a digit or a sign |
| Numbers.AtoiRoundTrip | backend/internal/chat/mcp_tools.go:53 | every int64 survives `%d` followed by Atoi |
| Numbers.DecimalOfNatToString | backend/internal/chat/mcp_tools.go:231 | `%d` of n is a digit string whose value is n |
| Records.TypeName | backend/internal/models/transaction.go:17-21 | a type is stored as one of "deposit", "withdraw", "transfer" |
| Records.StatusName | backend/internal/models/transaction.go:26-30 | a set status is one of "pending", "completed", "failed"; only the unset status is empty |
| Records.EncodeHex | backend/internal/models/transaction.go:164-169 | two lower-case hex digits per byte |
| Records.DecodeHex | backend/internal/models/transaction.go:172-177 | a decoded result is half the text's length; an invalid-byte error carries the first UTF-8 byte of the first character that is not a hex digit, every character before it being a digit |
| Records.DecodeHexReportsLeadByte | backend/internal/models/transaction.go:172-177 | a non-ASCII character is reported by its UTF-8 lead byte: "é" gives 0xC3, alone or after a digit |
| Records.DecodeHexAccepts | backend/internal/models/transaction.go:172-177 | decoding succeeds exactly on even-length strings of hex digits |
| Records.DecodeEncode | backend/internal/models/transaction.go:164-177 | decoding an encoding gives back the bytes |
| Records.EncodeDecode | backend/internal/models/transaction.go:164-177 | lower-case hex text is the encoding of what it decodes to |
| Records.Uint128ToHex | backend/internal/models/transaction.go:164-169 | a transfer ID's 16-byte image is stored as 32 lower-case hex digits |
| Records.HexToUint128 | backend/internal/models/transaction.go:172-187 | a success is 16 bytes; a length error reports the decoded length, which is not 16 |
| Records.HexToUint128Accepts | backend/internal/models/transaction.go:172-187 | stored ID text is accepted exactly when it is 32 hex digits |
| Records.HexToUint128RejectsNonHex | backend/internal/models/transaction.go:174-177 | a non-hex character is a decoding error, never a length error |
| Records.HexToUint128WrongLength | backend/internal/models/transaction.go:180-182 | even-length hex text of the wrong size gives the invalid-length error with its byte count |
| Records.TransferIdRoundTrip | backend/internal/models/transaction.go:164-187 | storing and reading back a transfer ID gives the same 16 bytes |
| Records.TransactionRecord.constructor | backend/internal/models/transaction.go:33-63 | a record holds exactly the given fields |
| Records.TransactionRecord.BeforeCreate | backend/internal/models/transaction.go:71-79 | a nil id is replaced by a fresh one and an empty status by pending; nothing else changes |
| Records.TransactionRecord.SetTigerBeetleTransferID | backend/internal/models/transaction.go:82-88 | only the stored ID text changes, and it reads back as the given image |
| Records.TransactionRecord.GetTigerBeetleTransferID | backend/internal/models/transaction.go:91-106 | reading succeeds exactly when the stored text is 32 hex digits; lower-case text re-encodes to itself |
| Records.ToDto | backend/internal/models/transaction.go:131-155 | the response object carries every row field, and the recipient's e-mail and name only when the recipient was loaded |
| AuditStore.Select | backend/internal/transaction/repository.go:63 | the WHERE clause keeps exactly the matching rows |
| AuditStore.Insert | backend/internal/transaction/repository.go:64 | inserting keeps newest-first order and adds exactly one row |
| AuditStore.NewestFirst | backend/internal/transaction/repository.go:64 | ORDER BY created_at DESC: the same rows, as a multiset, newest first |
| AuditStore.WindowSlice | backend/internal/transaction/repository.go:65-66 | OFFSET then LIMIT with a non-negative limit is one slice |
| AuditStore.WindowShape | backend/internal/transaction/repository.go:65-66 | a window keeps only rows of the input, keeps their order, and holds at most `limit` of them |
| AuditStore.OrderedRows | backend/internal/transaction/repository.go:63-64 | the ordered result holds exactly the matching rows |
| AuditStore.PageShape | backend/internal/transaction/repository.go:50-74 | a page holds only matching rows of the table, newest first, at most `limit` of them |
| AuditStore.PageOffsetExact | backend/internal/transaction/repository.go:54-57 | from page 1 on, while page × limit fits in an int64, the offset is (page − 1) × limit and the next page's offset is `limit` more |
| AuditStore.HugePageWrapsToFirst | backend/internal/transaction/repository.go:54-57 | page 922337203685477582 of 10 rows wraps to offset 0 and returns page 1 |
| AuditStore.PagesAreContiguous | backend/internal/transaction/repository.go:50-107 | while page × limit fits in an int64, consecutive pages are adjacent, non-overlapping slices of the ordered result |
| AuditStore.Earliest | backend/internal/transaction/repository.go:206 | `First` picks the row with the smallest id |
| AuditStore.GetByUserID | backend/internal/transaction/repository.go:50-74 | fails exactly when the database does; otherwise exactly the page at the (wrapped) offset of the newest-first rows the user initiated |
| AuditStore.GetAllByUserID | backend/internal/transaction/repository.go:78-107 | fails exactly when the database does; otherwise exactly the page at the (wrapped) offset of the newest-first rows the user sent or received |
| AuditStore.GetByUserIDAndType | backend/internal/transaction/repository.go:110-132 | fails exactly when the database does; otherwise exactly the page at the (wrapped) offset of the newest-first rows of one type the user initiated |
| AuditStore.GetRecent | backend/internal/transaction/repository.go:179-195 | the recent rows are page 1 of GetAllByUserID with the same limit |
| AuditStore.CountByUserID | backend/internal/transaction/repository.go:136-147 | the number of rows the user initiated |
| AuditStore.CountAllByUserID | backend/internal/transaction/repository.go:150-161 | the number of rows the user sent or received |
| AuditStore.CountBoundsPages | backend/internal/transaction/repository.go:78-161 | a page is empty exactly when its offset, computed with Go's int64 wrap, reaches the count, and otherwise holds min(limit, what is left) rows |
| AuditStore.GetByID | backend/internal/transaction/repository.go:31-46 | a database failure, or "transaction not found" exactly when no row has the id; otherwise a row with that id |
| AuditStore.GetByTigerBeetleTransferID | backend/internal/transaction/repository.go:199-215 | a database failure, or not found exactly when no row stores that transfer ID; otherwise such a row, with the smallest id among them |
| AuditStore.SetStatus | backend/internal/transaction/repository.go:165-175 | every row with the id gets the status and the update time and keeps its other columns; every other row is untouched; a set status keeps the table's constraints |
| AuditStore.Repository.constructor | backend/internal/transaction/repository.go:18-20 | an empty, consistent table |
| AuditStore.Repository.Create | backend/internal/transaction/repository.go:23-28 | defaults are applied to the record; the insert succeeds exactly when the database answers and the row is well formed with new keys; only then is the row appended |
| AuditStore.Repository.UpdateStatus | backend/internal/transaction/repository.go:165-175 | every row with the id gets the status and update time; an empty status or a database failure changes nothing; the table's constraints are kept |
| Ledger.PostMovesAmount | backend/internal/transaction/service.go:65-74 | a posted transfer takes exactly `amount` from the debit account, adds it to the credit account, and leaves every other account alone |
| Ledger.PostKeepsNoOverdraft | backend/internal/tigerbeetle/client.go:98-123 | no account flagged "debits must not exceed credits" ever goes negative |
| Ledger.Client.constructor | backend/internal/tigerbeetle/client.go:24-66 | a client over the given accounts and address |
| Ledger.Client.EnsureSystemAccount | backend/internal/tigerbeetle/client.go:69-95 | only a failed call is an error; "exists" is accepted; the system account is added only when the ledger applies the creation |
| Ledger.Client.CreateAccount | backend/internal/tigerbeetle/client.go:98-123 | success exactly when applied, and then a new overdraft-protected account with nothing posted; a rejected item's error carries its result code in decimal |
| Ledger.Client.GetBalance | backend/internal/tigerbeetle/client.go:126-150 | lookup failure, or "account not found"; a balance is credits minus debits and is never negative for a protected account |
| Ledger.Client.LookupAccounts | backend/internal/tigerbeetle/client.go:162-168 | the account when it exists, an empty result otherwise |
| Ledger.Client.CreateTransfers | backend/internal/tigerbeetle/client.go:153-159 | an error exactly when the call fails, no per-item results exactly when the transfer was applied, a rejected item's result code otherwise, and the accounts change only when applied |
| Ledger.JoinHostPort | backend/internal/tigerbeetle/client.go:216 | a host with a colon is bracketed |
| Ledger.Endpoint | backend/internal/tigerbeetle/client.go:173-178 | an address that does not split is all host, on port 3000 |
| Ledger.ResolveAddress | backend/internal/tigerbeetle/client.go:171-222 | an IP host is never looked up; otherwise at most three lookups, stopping at the first good answer, with success exactly when one of the three is good and the first address of that answer used |
| Ledger.NewClient | backend/internal/tigerbeetle/client.go:24-66 | the client dials DialTarget (the resolved address, or the address as given when resolution fails); a connection failure names both addresses; the client fails only when the connection or the system-account bootstrap fails |
| Ledger.DialTarget | backend/internal/tigerbeetle/client.go:28-34 | an IP host is joined with its port; otherwise the first address of the first good lookup, joined with the port; the address as given when no lookup is good |
| Transactions.FindUserById | backend/internal/transaction/service.go:31-47 | the user with this id, or none exists |
| Transactions.FindUserByAccount | backend/internal/transaction/service.go:226 | the user owning this ledger account, or none exists |
| Transactions.ClampPage | backend/internal/transaction/service.go:304-306 | a page below 1 becomes 1 and valid pages are kept |
| Transactions.ClampLimit | backend/internal/transaction/service.go:307-309 | a limit outside [1, 100] becomes 10 and valid limits are kept |
| Transactions.RecipientProfile | backend/internal/models/transaction.go:147-151 | a profile is given exactly when the row names a recipient who exists, and it is that user's e-mail and name |
| Transactions.Service.constructor | backend/internal/transaction/service.go:22-28 | a service over the given ledger, table and users |
| Transactions.Service.GetUserByID | backend/internal/transaction/service.go:31-47 | a malformed ID, a database error, or "user not found"; an ID that parses and names an existing user, with the database answering, gives that user |
| Transactions.Service.Deposit | backend/internal/transaction/service.go:50-113 | a non-positive amount or unknown user is refused first; success exactly when the ledger applies the transfer; on error neither ledger nor table changes; on success one transfer from the system account and at most one audit row |
| Transactions.Service.Withdraw | backend/internal/transaction/service.go:116-187 | as Deposit, after a balance check: a balance below the amount is "insufficient funds: balance is B, requested A", and balance equal to amount is allowed |
| Transactions.Service.Transfer | backend/internal/transaction/service.go:190-298 | checks amount, sender, balance, then destination; an unknown destination is "destination account not found"; success posts one transfer and records the recipient exactly when some user owns the destination |
| Transactions.Service.Submit | backend/internal/transaction/service.go:77-103 | a failed ledger call or a result code (named in decimal in the error) fails the operation and changes nothing; otherwise the ledger holds exactly the transfer's effect and the audit table gains the completed record if it admits it |
| Transactions.Service.GetHistory | backend/internal/transaction/service.go:302-342 | user errors pass through; otherwise the clamped page, at the int64-wrapped offset, of rows the user sent or received, newest first, each as its response object with recipient details |
| Transactions.Service.GetHistoryCount | backend/internal/transaction/service.go:345-352 | user errors pass through; otherwise CountAllByUserID of the user, so it succeeds exactly when the database answers and gives the number of rows the user sent or received |
| Transactions.OperationMovesExactly | backend/internal/transaction/service.go:65-85 | a transfer the ledger applies keeps every protected account non-negative and moves exactly `amount` |
| TxHandlers.Gate | backend/internal/transaction/handlers.go:45-56 | the deposit and withdrawal checks: no user gives 401; an absent or non-positive amount gives 400; otherwise the service is called with the user and amount |
| TxHandlers.TransferGate | backend/internal/transaction/handlers.go:120-133 | no user gives 401; an absent or non-positive amount, or an absent or zero destination account, gives 400 "Invalid request payload"; otherwise the service is called with the user, destination and amount |
| TxHandlers.DepositGate | backend/internal/transaction/handlers.go:43-62 | as Gate, and an amount above 1,000,000,000 cents gives 400 "Deposit amount too large" |
| TxHandlers.DepositReply | backend/internal/transaction/handlers.go:65-76 | every service error is a 500 |
| TxHandlers.WithdrawReply | backend/internal/transaction/handlers.go:100-115 | an error equal to or starting with "insufficient funds" is a 400 carrying it; any other is a 500 |
| TxHandlers.TransferReply | backend/internal/transaction/handlers.go:140-160 | a longer error starting with "insufficient funds" is a 400; "destination account not found" is a 404; everything else, the bare "insufficient funds" included, is a 500 |
| TxHandlers.InsufficientFundsIsBadRequest | backend/internal/transaction/handlers.go:100-150 | the service's insufficient-funds errors reach the client as 400 from both handlers |
| TxHandlers.PageParam | backend/internal/transaction/handlers.go:174-180 | an absent, unscannable or non-positive page is 1, and a scanned page of 1 or more is kept |
| TxHandlers.LimitParam | backend/internal/transaction/handlers.go:181-187 | an absent, unscannable or out-of-range limit is 10 |
| TxHandlers.HandlerParamsSurviveClamping | backend/internal/transaction/handlers.go:174-190 | the handler's page and limit are already in the service's ranges |
| TxHandlers.HistoryGate | backend/internal/transaction/handlers.go:165-187 | no user gives 401; otherwise a page ≥ 1 and a limit in [1, 100] |
| TxHandlers.HistoryReply | backend/internal/transaction/handlers.go:190-203 | success exactly when the service succeeds; any error is a 500 "Failed to retrieve transaction history" |
| Tools.Catalog | backend/internal/chat/mcp_server.go:48-143 | the five tools under their own names; exactly deposit, withdraw and transfer require confirmation |
| Tools.CanonicalHandlerSpec | backend/internal/chat/mcp_tools.go:242-269 | only catalog names have a handler, and the money handlers belong to exactly the confirmed tools |
| Tools.StartupRegistry | backend/internal/chat/mcp_server.go:23-39 | the registry built at start-up has a handler for every tool and is guarded |
| Tools.GetConfirmationMessage | backend/internal/chat/mcp_types.go:36-55 | the deposit, withdraw and transfer prompts with their arguments; the generic prompt for other tools and whenever an argument is missing |
| Tools.Trunc | backend/internal/chat/mcp_tools.go:111 | conversion to an integer truncates toward zero |
| Tools.RequestedLimit | backend/internal/chat/mcp_tools.go:44-57 | default 10; a JSON number is truncated toward zero, an integer is kept, and a string that Atoi accepts gives its value; anything else leaves 10 |
| Tools.HistoryLimit | backend/internal/chat/mcp_tools.go:59-65 | the requested limit clamped into [1, 100] |
| Tools.HandleGetBalance | backend/internal/chat/mcp_tools.go:14-35 | one balance call; success exactly when it answers, with the balance as data |
| Tools.HandleGetHistory | backend/internal/chat/mcp_tools.go:43-84 | one history call for page 1 with the clamped limit; success exactly when it answers, with the rows as data; a failed call's error is the tool's error and follows "Failed to retrieve transaction history: " in the message |
| Tools.AmountArg | backend/internal/chat/mcp_tools.go:93-109 | a number that is positive is accepted; a missing or non-number amount is "Invalid amount: must be a number" |
| Tools.AfterMoneyCall | backend/internal/chat/mcp_tools.go:114-125 | the service's error decides success, and a failure message carries it |
| Tools.HandleDeposit | backend/internal/chat/mcp_tools.go:92-126 | the service is called exactly when the amount is a positive number, with its cents; success exactly when the service succeeds |
| Tools.HandleWithdraw | backend/internal/chat/mcp_tools.go:135-170 | as HandleDeposit, for withdrawals |
| Tools.HandleTransfer | backend/internal/chat/mcp_tools.go:180-233 | the amount is checked first, then that the destination is a string, then that it parses as uint64; the service is called exactly when all pass |
| Tools.RunHandler | backend/internal/chat/mcp_server.go:194 | only a money handler makes a money call |
| Tools.TransferToolKeepsAccountId | backend/internal/chat/mcp_tools.go:199-221 | a destination written with `%d` reaches the service as the same account number |
| Tools.MCPServer.constructor | backend/internal/chat/mcp_server.go:23-39 | the five catalog tools, each with its handler; guarded |
| Tools.MCPServer.RegisterTools | backend/internal/chat/mcp_server.go:48-143 | the catalog is added to the registry |
| Tools.MCPServer.SetToolHandler | backend/internal/chat/mcp_server.go:250-258 | an unknown name is an error and changes nothing; otherwise only that tool's handler changes |
| Tools.MCPServer.InitializeToolHandlers | backend/internal/chat/mcp_tools.go:242-269 | succeeds exactly when every catalog name is registered, and then wires each one's handler |
| Tools.MCPServer.GetToolDefinitions | backend/internal/chat/mcp_server.go:210-227 | one definition per registered tool, each tool present, names distinct |
| Tools.MCPServer.ExecuteTool | backend/internal/chat/mcp_server.go:162-203 | unknown tool and missing handler are errors; an unconfirmed money tool returns a confirmation request without running; otherwise the handler runs and its error becomes "Tool execution failed" |
| Tools.UnconfirmedNeverMovesMoney | backend/internal/chat/mcp_server.go:181-191 | in a guarded registry, an unconfirmed execution never makes a money call |
| ChatClient.RuneLength | backend/internal/chat/mcp_client.go:112 | a character takes one to four UTF-8 bytes, one exactly when it is ASCII |
| ChatClient.Utf8Length | backend/internal/chat/mcp_client.go:112 | a string's byte length is between its length and four times it |
| ChatClient.AsciiLength | backend/internal/chat/mcp_client.go:112 | ASCII text has as many bytes as characters |
| ChatClient.StatusError | backend/internal/chat/mcp_client.go:260-273 | the fixed texts for 429, 401/403, 400, 503/504, and one naming the status otherwise |
| ChatClient.StatusErrorNamesStatus | backend/internal/chat/mcp_client.go:271-272 | two 64-bit statuses outside the named ones with the same text are the same status |
| ChatClient.CallOpenRouter | backend/internal/chat/mcp_client.go:227-302 | a response only for status 200 with a body that decodes |
| ChatClient.ParseToolCall | backend/internal/chat/mcp_client.go:522-568 | the first call of the first choice; blank or "{}" arguments are empty; arguments that do not decode mean no call |
| ChatClient.FormatToolResponse | backend/internal/chat/mcp_client.go:584-593 | the tool's message, prefixed when it failed |
| ChatClient.ReplyAfterTool | backend/internal/chat/mcp_client.go:466-505 | the second completion's text, or the tool's formatted message when that call fails or has no text; the tool's data is kept |
| ChatClient.AIClient.constructor | backend/internal/chat/mcp_client.go:41-77 | the client shares the given registry |
| ChatClient.AIClient.HandleAIResponse | backend/internal/chat/mcp_client.go:324-380 | no choices is an error; no tool call gives the text; a tool call goes through the gate unconfirmed; a confirmation request is handed back with the tool and arguments |
| ChatClient.AIClient.ProcessMessage | backend/internal/chat/mcp_client.go:99-127 | an empty user, an empty trimmed message, or one over 2000 bytes is refused before any completion call; a failed call is wrapped |
| ChatClient.ChatTurnNeverMovesMoney | backend/internal/chat/mcp_client.go:352 | in a guarded registry no chat turn makes a money call |
| Intents.DetectIntent | backend/internal/chat/intent.go:108-118 | the loop returns the reference classification |
| Intents.ClassifyIsFirstMatch | backend/internal/chat/intent.go:18-65 | the intent is that of the first family with a matching pattern |
| Intents.ClassifyUnknown | backend/internal/chat/intent.go:117 | unknown exactly when no pattern of any family matches |
| Intents.MentioningBalanceIsBalance | backend/internal/chat/intent.go:23 | any message containing "balance" in any case is a balance query |
| Intents.FirstDigitRun | backend/internal/chat/intent.go:68-71 | the first maximal run of digits |
| Intents.ExtractAccountID | backend/internal/chat/intent.go:140-152 | the first digit run as a 64-bit number; 0 when there is none or it overflows |
| Intents.AccountIdRoundTrip | backend/internal/chat/intent.go:140-152 | a number after digit-free text is read back unchanged |
| Intents.FractionCents | backend/internal/chat/intent.go:68 | one or two decimals are less than a dollar |
| Intents.ExtractAmount | backend/internal/chat/intent.go:122-137 | the first number with at most two decimals, in cents; 0 without digits |
| Intents.WholeAmount | backend/internal/chat/intent.go:122-137 | a whole number of dollars is read as 100 × its value |
| Intents.LimitDigitsAt | backend/internal/chat/intent.go:74 | a match of "last" or "recent", white space, then a digit |
| Intents.FindLimit | backend/internal/chat/intent.go:156 | the match at the leftmost position where the pattern matches, with no match before it, or none anywhere |
| Intents.ExtractLimit | backend/internal/chat/intent.go:155-172 | the number after the first "last"/"recent", capped at 100; 0 when absent or too large |
| Intents.Parameters | backend/internal/chat/intent.go:84-104 | only the detected intent's fields are set; a history limit of 0 becomes 10 |
| Intents.ParseIntent | backend/internal/chat/intent.go:78-105 | the intent of the trimmed message, and its parameters |
| Intents.ValidateIntent | backend/internal/chat/intent.go:175-195 | deposit and withdraw without a positive amount give the valid-amount error; a transfer gives the transfer-amount error first, then the missing-destination error for account 0; unknown gives "I didn't understand that request"; balance and history pass |
| Intents.TransferValidation | backend/internal/chat/intent.go:182-188 | a parsed transfer is valid exactly when the message names a positive amount and a non-zero account |
| ChatService.Service.constructor | backend/internal/chat/service.go:21-43 | a guarded registry with every handler; an AI client, sharing it, exactly when configured |
| ChatService.Service.ProcessMessage | backend/internal/chat/service.go:46-95 | no AI client gives the unavailable reply; errors are wrapped; confirmation data is present exactly when confirmation is required, with the tool and arguments |
| ChatService.Service.ProcessConfirmation | backend/internal/chat/service.go:98-144 | no registry is an error; a decline cancels without executing; an acceptance executes the tool once, confirmed, and its error, failure or success decides the reply |
| ChatService.MessageNeverMovesMoney | backend/internal/chat/service.go:60-62 | with the registry guarded and any AI client sharing it, a chat message never makes a money call |
| ChatService.ConfirmingRunsTheRequestedTool | backend/internal/chat/service.go:84-119 | confirming the tool and arguments a turn handed back runs that tool's handler |
| ChatService.BulletsMentionEach | backend/internal/chat/service.go:258-263 | every suggestion appears, quoted, in the bullet list |
| ChatService.BuildUnknownResponse | backend/internal/chat/service.go:251-279 | the custom message or the default, then every suggestion; the same suggestions as data; intent unknown |

## Left out

- **Transport and plumbing.**
  - HTTP and JSON are not modelled: request building, headers, bodies,
    marshalling, prompts and logging.
  - Each completion call's answer is an input: a transport failure, or
    a status and a decoded body. JSON decoding of tool arguments is an
    input too.
  - The texts of transport failures are carried as given, not
    reconstructed.
- **Storage and the ledger library.**
  - The TigerBeetle client library and PostgreSQL/GORM are replaced by
    a map of accounts and a sequence of rows.
  - Ledger replies and database availability are inputs.
  - Soft delete, preloading and indexes are not modelled. The order of
    rows with equal creation times is not modelled either.
  - AuditStore.Earliest: `First` orders by primary key; the model takes
    the smallest id.
  - Wrapped causes (`%w`) in database, ledger, DNS and UUID-parsing
    errors are left out: each such error is modelled as its fixed text
    before the cause.
- **Randomness and the clock.** Transfer IDs (a UUID's 32-bit ID),
  record UUIDs, account-number generation and the clock are inputs. Their
  uniqueness is not proved.
- **Transfer ID bytes.** The Uint128 ↔ 16-byte conversion lives in the
  ledger library, so the model keeps the 16-byte image uninterpreted. The
  round trip is stated at the byte and hex level only.
- **Ledger.Client.GetBalance:** the `big.Int` → int64 narrowing is
  required to be in range, not modelled as a truncation.
- **Floating point.**
  - Dollar amounts are exact reals, and dollars-to-cents is exact
    truncation. float64 can land one cent lower (`0.29 * 100`).
  - Float-to-int64 overflow is not modelled.
  - Intents.ExtractAmount uses exact decimal arithmetic, not
    `ParseFloat` × 100. For amounts like "0.29" the program can compute
    28 cents where the model computes 29.
  - `%.2f`, `%q` and `%v` of errors are format inputs (`Tools.Fmt`).
    `formatAmount` and the formatted amount of a transaction are not
    modelled.
- **Regular expressions.**
  - Detection patterns are abstract predicates. Only the first balance
    pattern's meaning is stated.
  - The three extraction patterns are written out as scanners for their
    leftmost matches.
  - Case-insensitive matching covers ASCII letters plus the long s and
    Kelvin sign that fold onto them.
- **Service oracles.**
  - `handleGetBalance` uses the account service, which is not part of
    this model; its answer is an input.
  - `handleGetHistory`'s call `transactionService.GetHistory(userID, 1,
    limit)` is an input too (`Answers.history`): the tool records the call
    it makes, and the rows or the error come back as given.
  - Money tools get the transaction service's error as an input, not by
    calling `Transactions.Service`.
  - `%d` scanning of query parameters is an input.
- **Not modelled.**
  - The tool registry holds tool values, not pointers.
  - `GetTool`, `GetModelInfo` and `ValidateConfiguration` are not modelled.
  - `NewAIClient`'s environment configuration is a boolean.
  - The "no choices in original response" branch of
    `handleToolResultWithAI` cannot be reached after a tool call and is
    not modelled.
  - The legacy chat helpers `handleBalanceIntent`, `handleDepositIntent`,
    `handleWithdrawIntent`, `handleTransferIntent` and
    `handleHistoryIntent` are deprecated and unused, and format with
    `%.2f`.
- **Concurrency.** There are no application locks, so one request at a
  time is modelled.
- **Wording versus behaviour.** The 2000 limit counts UTF-8 bytes, as
  `len` does, although the error text says characters.
