/**
 * The adapter in front of the double-entry ledger server. The server's
 * accounts are an abstract map from account ID to posted debits and
 * credits; what the server answers to a batch is an oracle, constrained
 * only by the rules the server is known to enforce.
 */
module Ledger {
  import opened Wrappers
  import opened Numbers
  import opened Text

  /** Every account and transfer lives on ledger 1. */
  const UserLedger: nat := 1

  /** The bank's own account, the other side of deposits and withdrawals. */
  const SystemAccountId: nat := 1

  const SystemAccountCode: nat := 999
  const UserAccountCode: nat := 1

  /** Transfer codes of the three operations. */
  const DepositCode: nat := 1
  const WithdrawCode: nat := 2
  const TransferCode: nat := 3

  /** The server's port when the address names none. */
  const DefaultPort := "3000"

  /** Hostname lookups before giving up. */
  const MaxLookups: nat := 3

  datatype Account = Account(
    ledger: nat,
    code: nat,
    debitsMustNotExceedCredits: bool,
    debitsPosted: nat,
    creditsPosted: nat)

  /** The system account as bootstrapped: no flags, nothing posted. */
  const SystemAccount := Account(UserLedger, SystemAccountCode, false, 0, 0)

  /** A user account as created: it may never be overdrawn. */
  const UserAccount := Account(UserLedger, UserAccountCode, true, 0, 0)

  /** Posted credits minus posted debits. */
  function Balance(a: Account): int {
    a.creditsPosted - a.debitsPosted
  }

  /** The guarantee the server keeps: no flagged account has more debits than credits. */
  predicate NoOverdraft(accounts: map<nat, Account>) {
    forall id :: id in accounts && accounts[id].debitsMustNotExceedCredits ==> Balance(accounts[id]) >= 0
  }

  datatype Transfer = Transfer(id: nat, debitAccountId: nat, creditAccountId: nat, amount: nat, ledger: nat, code: nat)

  /**
   * The server's answer to a one-item batch: the call itself failed, the
   * item was rejected with a result code (its number, as `%d` prints it),
   * or it was applied (no results).
   */
  datatype BatchReply = CallFailed | Rejected(code: nat) | Applied

  /**
   * What the server checks before it applies a transfer: both accounts
   * exist, differ and are on the transfer's ledger, and a flagged debit
   * account is not overdrawn by it.
   */
  predicate Postable(accounts: map<nat, Account>, t: Transfer) {
    t.debitAccountId in accounts && t.creditAccountId in accounts &&
    t.debitAccountId != t.creditAccountId &&
    accounts[t.debitAccountId].ledger == t.ledger && accounts[t.creditAccountId].ledger == t.ledger &&
    (accounts[t.debitAccountId].debitsMustNotExceedCredits ==>
       accounts[t.debitAccountId].debitsPosted + t.amount <= accounts[t.debitAccountId].creditsPosted)
  }

  /** The accounts after a transfer is applied. */
  function Post(accounts: map<nat, Account>, t: Transfer): map<nat, Account>
    requires t.debitAccountId in accounts && t.creditAccountId in accounts
  {
    var d := accounts[t.debitAccountId];
    var accounts' := accounts[t.debitAccountId := d.(debitsPosted := d.debitsPosted + t.amount)];
    var c := accounts'[t.creditAccountId];
    accounts'[t.creditAccountId := c.(creditsPosted := c.creditsPosted + t.amount)]
  }

  /**
   * Applying a postable transfer takes exactly `amount` from the debit
   * account's balance, adds it to the credit account's, and leaves every
   * other account as it was.
   */
  lemma PostMovesAmount(accounts: map<nat, Account>, t: Transfer)
    requires Postable(accounts, t)
    ensures var after := Post(accounts, t);
      after.Keys == accounts.Keys &&
      Balance(after[t.debitAccountId]) == Balance(accounts[t.debitAccountId]) - t.amount &&
      Balance(after[t.creditAccountId]) == Balance(accounts[t.creditAccountId]) + t.amount &&
      (forall id :: id in accounts && id != t.debitAccountId && id != t.creditAccountId ==> after[id] == accounts[id])
  {
  }

  /** The server's guarantee survives every transfer it applies. */
  lemma PostKeepsNoOverdraft(accounts: map<nat, Account>, t: Transfer)
    requires NoOverdraft(accounts) && Postable(accounts, t)
    ensures NoOverdraft(Post(accounts, t))
  {
    var after := Post(accounts, t);
    forall id | id in after && after[id].debitsMustNotExceedCredits
      ensures Balance(after[id]) >= 0
    {
      assert id in accounts;
    }
  }

  class Client {
    /** The server's accounts. */
    var accounts: map<nat, Account>
    /** The address the connection was opened to. */
    const target: string
    const systemAccountId: nat

    ghost predicate Valid()
      reads this
    {
      NoOverdraft(accounts) && systemAccountId == SystemAccountId
    }

    constructor (target: string, accounts: map<nat, Account>)
      requires NoOverdraft(accounts)
      ensures Valid() && this.target == target && this.accounts == accounts
    {
      this.target := target;
      this.accounts := accounts;
      this.systemAccountId := SystemAccountId;
    }

    /**
     * `ensureSystemAccount`: only a failed call is an error; every per-item
     * result, "exists" included, counts as success.
     */
    method EnsureSystemAccount(reply: BatchReply) returns (err: Option<string>)
      requires Valid()
      requires reply.Applied? ==> systemAccountId !in accounts
      modifies this
      ensures Valid()
      ensures err.Some? <==> reply.CallFailed?
      ensures accounts == if reply.Applied? then old(accounts)[systemAccountId := SystemAccount] else old(accounts)
    {
      if reply.CallFailed? {
        return Some("failed to create system account");
      }
      if reply.Applied? {
        accounts := accounts[systemAccountId := SystemAccount];
      }
      err := None;
    }

    /**
     * `CreateAccount`: a user account with the no-overdraft flag; an error
     * exactly when the call fails or the item comes back with a result.
     */
    method CreateAccount(accountId: nat, reply: BatchReply) returns (err: Option<string>)
      requires Valid()
      requires reply.Applied? ==> accountId !in accounts
      modifies this
      ensures Valid()
      ensures err.None? <==> reply.Applied?
      ensures reply.CallFailed? ==> err == Some("failed to create account")
      ensures reply.Rejected? ==> err == Some("failed to create account: result code " + NatToString(reply.code))
      ensures accounts == if reply.Applied? then old(accounts)[accountId := UserAccount] else old(accounts)
    {
      match reply
      case CallFailed =>
        err := Some("failed to create account");
      case Rejected(code) =>
        err := Some("failed to create account: result code " + NatToString(code));
      case Applied =>
        accounts := accounts[accountId := UserAccount];
        err := None;
    }

    /**
     * `GetBalance`: "account not found" when the lookup finds nothing,
     * otherwise posted credits minus posted debits.
     */
    function GetBalance(accountId: nat, lookupOk: bool): (r: Result<int, string>)
      reads this
      requires accountId in accounts ==> MinInt64 <= Balance(accounts[accountId]) <= MaxInt64
      ensures !lookupOk ==> r == Err("failed to lookup account")
      ensures lookupOk && accountId !in accounts ==> r == Err("account not found")
      ensures r.Ok? ==> accountId in accounts &&
                        r.value == accounts[accountId].creditsPosted - accounts[accountId].debitsPosted
      ensures r.Ok? && Valid() && accounts[accountId].debitsMustNotExceedCredits ==> r.value >= 0
    {
      if !lookupOk then Err("failed to lookup account")
      else
        var found := LookupAccounts(accountId, true);
        if found.value == [] then Err("account not found")
        else Ok(Balance(found.value[0]))
    }

    /** `LookupAccounts` for one ID: the account if it exists, nothing otherwise. */
    function LookupAccounts(accountId: nat, lookupOk: bool): (r: Result<seq<Account>, string>)
      reads this
      ensures r.Err? <==> !lookupOk
      ensures r.Ok? ==> (r.value == [] <==> accountId !in accounts)
      ensures r.Ok? && r.value != [] ==> r.value == [accounts[accountId]]
    {
      if !lookupOk then Err("failed to lookup accounts")
      else if accountId in accounts then Ok([accounts[accountId]])
      else Ok([])
    }

    /**
     * `CreateTransfers` for one transfer: the call's error, the item's
     * result code, or no results and the transfer posted.
     */
    method CreateTransfers(t: Transfer, reply: BatchReply) returns (r: Result<seq<nat>, string>)
      requires Valid()
      requires reply.Applied? ==> Postable(accounts, t)
      modifies this
      ensures Valid()
      ensures r.Err? <==> reply.CallFailed?
      ensures r.Err? ==> r.error == "failed to create transfers"
      ensures r.Ok? ==> (r.value == [] <==> reply.Applied?)
      ensures reply.Rejected? ==> r == Ok([reply.code])
      ensures accounts == if reply.Applied? then Post(old(accounts), t) else old(accounts)
    {
      match reply
      case CallFailed =>
        r := Err("failed to create transfers");
      case Rejected(code) =>
        r := Ok([code]);
      case Applied =>
        PostKeepsNoOverdraft(accounts, t);
        accounts := Post(accounts, t);
        r := Ok([]);
    }
  }

  // ---------------------------------------------------------------------
  // Address resolution
  // ---------------------------------------------------------------------

  /** A host and a port, as splitting "host:port" yields them. */
  datatype HostPort = HostPort(host: string, port: string)

  /** The answer to one hostname lookup: addresses, or a failure. */
  datatype Lookup = Lookup(addrs: seq<string>, failed: bool)

  /** A lookup that ends the retries: no failure and at least one address. */
  predicate Good(l: Lookup) {
    !l.failed && |l.addrs| > 0
  }

  /** `net.JoinHostPort`: a host containing a colon is bracketed. */
  function JoinHostPort(host: string, port: string): (r: string)
    ensures ':' !in host ==> r == host + ":" + port
    ensures ':' in host ==> r == "[" + host + "]:" + port
  {
    if ':' in host then "[" + host + "]:" + port else host + ":" + port
  }

  /** The host and port of an address; an address that does not split is all host, on the default port. */
  function Endpoint(address: string, split: string -> Option<HostPort>): (hp: HostPort)
    ensures split(address).None? ==> hp == HostPort(address, DefaultPort)
    ensures split(address).Some? ==> hp == split(address).value
  {
    if split(address).Some? then split(address).value else HostPort(address, DefaultPort)
  }

  /**
   * `resolveAddress`. `split` and `isIP` stand for the standard library's
   * host:port splitting and IP parsing; `dns` holds the answers the
   * resolver gives to successive lookups of the host. An IP host is joined
   * with the port unchanged and never looked up. Otherwise the host is
   * looked up at most three times, stopping at the first good answer;
   * resolution succeeds exactly when one of the three answers is good,
   * and then uses the first address of the first good answer.
   */
  method ResolveAddress(address: string, split: string -> Option<HostPort>, isIP: string -> bool, dns: seq<Lookup>)
    returns (r: Result<string, string>, attempts: nat)
    requires |dns| >= MaxLookups
    ensures var hp := Endpoint(address, split);
      isIP(hp.host) ==> attempts == 0 && r == Ok(JoinHostPort(hp.host, hp.port))
    ensures var hp := Endpoint(address, split);
      !isIP(hp.host) ==>
        1 <= attempts <= MaxLookups &&
        (forall i :: 0 <= i < attempts - 1 ==> !Good(dns[i])) &&
        (attempts < MaxLookups ==> Good(dns[attempts - 1])) &&
        (r.Ok? <==> exists i :: 0 <= i < MaxLookups && Good(dns[i])) &&
        (r.Ok? ==> r.value == JoinHostPort(dns[attempts - 1].addrs[0], hp.port)) &&
        (r.Err? && dns[attempts - 1].failed ==> r == Err("failed to lookup host '" + hp.host + "' after 3 attempts")) &&
        (r.Err? && !dns[attempts - 1].failed ==> r == Err("no IP addresses found for host '" + hp.host + "'"))
  {
    var hp := Endpoint(address, split);
    var host, port := hp.host, hp.port;
    if isIP(host) {
      return Ok(JoinHostPort(host, port)), 0;
    }
    var ips: seq<string> := [];
    var lastFailed := false;
    attempts := 0;
    while attempts < MaxLookups
      invariant 0 <= attempts <= MaxLookups
      invariant forall i :: 0 <= i < attempts ==> !Good(dns[i])
      invariant attempts > 0 ==> ips == dns[attempts - 1].addrs && lastFailed == dns[attempts - 1].failed
    {
      ips, lastFailed := dns[attempts].addrs, dns[attempts].failed;
      attempts := attempts + 1;
      if !lastFailed && |ips| > 0 {
        break;
      }
    }
    if lastFailed {
      return Err("failed to lookup host '" + host + "' after 3 attempts"), attempts;
    }
    if |ips| == 0 {
      return Err("no IP addresses found for host '" + host + "'"), attempts;
    }
    r := Ok(JoinHostPort(ips[0], port));
  }

  /**
   * The address `NewClient` dials: what resolution yields (an IP host
   * joined with its port, or the first address of the first good lookup
   * joined with the port), and the address as given when resolution fails.
   */
  function DialTarget(address: string, split: string -> Option<HostPort>, isIP: string -> bool, dns: seq<Lookup>): (t: string)
    requires |dns| >= MaxLookups
    ensures var hp := Endpoint(address, split);
      isIP(hp.host) ==> t == JoinHostPort(hp.host, hp.port)
    ensures var hp := Endpoint(address, split);
      !isIP(hp.host) && (forall i :: 0 <= i < MaxLookups ==> !Good(dns[i])) ==> t == address
    ensures var hp := Endpoint(address, split);
      forall k :: !isIP(hp.host) && 0 <= k < MaxLookups && Good(dns[k]) && (forall j :: 0 <= j < k ==> !Good(dns[j])) ==>
        t == JoinHostPort(dns[k].addrs[0], hp.port)
  {
    var hp := Endpoint(address, split);
    if isIP(hp.host) then JoinHostPort(hp.host, hp.port)
    else if Good(dns[0]) then JoinHostPort(dns[0].addrs[0], hp.port)
    else if Good(dns[1]) then JoinHostPort(dns[1].addrs[0], hp.port)
    else if Good(dns[2]) then JoinHostPort(dns[2].addrs[0], hp.port)
    else address
  }

  /** The connection error names the address as given and the address dialled. */
  function ConnectError(address: string, resolved: string): string {
    "failed to create TigerBeetle client to '" + address + "' (resolved: '" + resolved + "')"
  }

  /**
   * `NewClient`: an unresolvable address is dialled as given rather than
   * failing; the client fails only when the connection cannot be opened
   * (`connectOk`) or the system-account bootstrap call fails. `server` is
   * the ledger's state when the client connects.
   */
  method NewClient(address: string, split: string -> Option<HostPort>, isIP: string -> bool, dns: seq<Lookup>,
                   connectOk: bool, server: map<nat, Account>, bootstrap: BatchReply)
    returns (c: Client?, err: Option<string>)
    requires |dns| >= MaxLookups
    requires NoOverdraft(server)
    requires bootstrap.Applied? ==> SystemAccountId !in server
    ensures err.None? <==> c != null
    ensures err.None? <==> connectOk && !bootstrap.CallFailed?
    ensures !connectOk ==> err == Some(ConnectError(address, DialTarget(address, split, isIP, dns)))
    ensures connectOk && bootstrap.CallFailed? ==> err == Some("failed to initialize system account")
    ensures c != null ==> fresh(c) && c.Valid() && c.systemAccountId == SystemAccountId
    ensures c != null ==> c.accounts == if bootstrap.Applied? then server[SystemAccountId := SystemAccount] else server
    ensures c != null ==> c.target == DialTarget(address, split, isIP, dns)
  {
    var resolved, attempts := ResolveAddress(address, split, isIP, dns);
    var target := if resolved.Ok? then resolved.value else address;
    if !isIP(Endpoint(address, split).host) && resolved.Ok? {
      assert Good(dns[attempts - 1]);
    }
    assert target == DialTarget(address, split, isIP, dns);
    if !connectOk {
      return null, Some(ConnectError(address, target));
    }
    c := new Client(target, server);
    var bootErr := c.EnsureSystemAccount(bootstrap);
    if bootErr.Some? {
      return null, Some("failed to initialize system account");
    }
    err := None;
  }
}
