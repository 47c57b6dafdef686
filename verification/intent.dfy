/**
 * The deterministic intent parser: which banking operation a message asks
 * for, decided by ordered families of patterns where the first match wins,
 * and the amount, destination account and history length it mentions.
 *
 * The detection patterns are abstract predicates, except the first balance
 * pattern, whose meaning is stated exactly. The three extraction patterns
 * are simple enough to be written out as scanners that find what RE2's
 * leftmost match of each finds.
 */
module Intents {
  import opened Wrappers
  import opened Text
  import opened Numbers

  datatype Intent = IntentBalance | IntentDeposit | IntentWithdraw | IntentTransfer | IntentHistory | IntentUnknown

  /** The parameters a message yields; fields the intent does not use stay zero. */
  datatype ParsedIntent = ParsedIntent(intent: Intent, amount: int, toAccountId: nat, limit: int)

  /** The detection patterns, family by family, in the order they are tried. */
  datatype Pattern =
    | BalanceQuery | HowMuch | AccountBalance
    | DepositVerb | AddToAccount | PutIntoAccount
    | WithdrawVerb | TakeOut | CashOut
    | TransferTo | SendTo | PayTo
    | ShowHistory | LastTransactions | TransactionList | MyTransactions

  /** Whether a pattern matches somewhere in a message. */
  type Matcher = (Pattern, string) -> bool

  const IntentPatterns: seq<(Intent, seq<Pattern>)> := [
    (IntentBalance, [BalanceQuery, HowMuch, AccountBalance]),
    (IntentDeposit, [DepositVerb, AddToAccount, PutIntoAccount]),
    (IntentWithdraw, [WithdrawVerb, TakeOut, CashOut]),
    (IntentTransfer, [TransferTo, SendTo, PayTo]),
    (IntentHistory, [ShowHistory, LastTransactions, TransactionList, MyTransactions])
  ]

  predicate AnyMatch(patterns: seq<Pattern>, message: string, matches: Matcher) {
    exists k :: 0 <= k < |patterns| && matches(patterns[k], message)
  }

  /** The reference classification: the intent of the first family with a matching pattern. */
  function Classify(families: seq<(Intent, seq<Pattern>)>, message: string, matches: Matcher): Intent {
    if families == [] then IntentUnknown
    else if AnyMatch(families[0].1, message, matches) then families[0].0
    else Classify(families[1..], message, matches)
  }

  /** `detectIntent`: tries every pattern of every family in order and returns at the first match. */
  method DetectIntent(message: string, matches: Matcher) returns (intent: Intent)
    ensures intent == Classify(IntentPatterns, message, matches)
  {
    var i := 0;
    while i < |IntentPatterns|
      invariant 0 <= i <= |IntentPatterns|
      invariant Classify(IntentPatterns, message, matches) == Classify(IntentPatterns[i..], message, matches)
    {
      var family := IntentPatterns[i];
      var j := 0;
      while j < |family.1|
        invariant 0 <= j <= |family.1|
        invariant forall k :: 0 <= k < j ==> !matches(family.1[k], message)
      {
        if matches(family.1[j], message) {
          assert AnyMatch(IntentPatterns[i..][0].1, message, matches);
          return family.0;
        }
        j := j + 1;
      }
      assert IntentPatterns[i..][1..] == IntentPatterns[i + 1..];
      i := i + 1;
    }
    return IntentUnknown;
  }

  /** The family that classifies a message is the first one with a matching pattern. */
  lemma {:induction false} ClassifyIsFirstMatch(families: seq<(Intent, seq<Pattern>)>, message: string, matches: Matcher, i: int)
    requires 0 <= i < |families| && AnyMatch(families[i].1, message, matches)
    requires forall j :: 0 <= j < i ==> !AnyMatch(families[j].1, message, matches)
    ensures Classify(families, message, matches) == families[i].0
    decreases i
  {
    if i > 0 {
      assert !AnyMatch(families[0].1, message, matches);
      ClassifyIsFirstMatch(families[1..], message, matches, i - 1);
    }
  }

  /** With no family naming `IntentUnknown`, a message is unknown exactly when no pattern matches it. */
  lemma {:induction false} ClassifyUnknown(families: seq<(Intent, seq<Pattern>)>, message: string, matches: Matcher)
    requires forall j :: 0 <= j < |families| ==> families[j].0 != IntentUnknown
    ensures Classify(families, message, matches) == IntentUnknown <==>
      forall j :: 0 <= j < |families| ==> !AnyMatch(families[j].1, message, matches)
  {
    if families != [] {
      ClassifyUnknown(families[1..], message, matches);
      if !AnyMatch(families[0].1, message, matches) {
        forall j | 0 <= j < |families| && j > 0
          ensures !AnyMatch(families[j].1, message, matches) <==> !AnyMatch(families[1..][j - 1].1, message, matches)
        {
        }
      }
    }
  }

  // ---------------------------------------------------------------------
  // Case-insensitive matching as RE2's (?i) does it for ASCII letters
  // ---------------------------------------------------------------------

  /**
   * The lower-case ASCII letter a character folds to: upper-case letters
   * fold to lower case, the long s (U+017F) to 's' and the Kelvin sign
   * (U+212A) to 'k'; every other character stands for itself.
   */
  function FoldKey(c: char): char {
    if 'A' <= c <= 'Z' then (c as int + 32) as char
    else if c == '\U{17F}' then 's'
    else if c == '\U{212A}' then 'k'
    else c
  }

  /** A lower-case word occurs at `p`, ignoring case. */
  predicate FoldMatchAt(s: string, p: nat, word: string) {
    p + |word| <= |s| && forall k :: 0 <= k < |word| ==> FoldKey(s[p + k]) == word[k]
  }

  ghost predicate ContainsFold(s: string, word: string) {
    exists p: nat :: FoldMatchAt(s, p, word)
  }

  /**
   * The first balance pattern's optional prefix and `\s*` can both match
   * nothing, so it matches exactly the messages that contain "balance" in
   * any case.
   */
  ghost predicate BalancePatternMeaning(matches: Matcher) {
    forall m :: matches(BalanceQuery, m) == ContainsFold(m, "balance")
  }

  /** Any message that mentions "balance", in any case, is a balance query. */
  lemma MentioningBalanceIsBalance(message: string, matches: Matcher)
    requires BalancePatternMeaning(matches) && ContainsFold(message, "balance")
    ensures Classify(IntentPatterns, message, matches) == IntentBalance
  {
    assert matches(IntentPatterns[0].1[0], message);
  }

  // ---------------------------------------------------------------------
  // Extraction
  // ---------------------------------------------------------------------

  /** The end of the run of digits starting at `i`. */
  function RunEnd(s: string, i: nat): (j: nat)
    requires i <= |s|
    ensures i <= j <= |s|
    ensures forall k :: i <= k < j ==> IsDigit(s[k])
    ensures j < |s| ==> !IsDigit(s[j])
    decreases |s| - i
  {
    if i < |s| && IsDigit(s[i]) then RunEnd(s, i + 1) else i
  }

  /** The first digit at or after `i`. */
  function FirstDigitFrom(s: string, i: nat): (r: Option<nat>)
    requires i <= |s|
    ensures r.None? ==> forall k :: i <= k < |s| ==> !IsDigit(s[k])
    ensures r.Some? ==> i <= r.value < |s| && IsDigit(s[r.value]) && forall k :: i <= k < r.value ==> !IsDigit(s[k])
    decreases |s| - i
  {
    if i == |s| then None else if IsDigit(s[i]) then Some(i) else FirstDigitFrom(s, i + 1)
  }

  /**
   * The first maximal run of digits. This is what both the amount and the
   * account patterns capture first: what they may match before the digits
   * (`$`, white space, "to", "account") holds no digit, so their leftmost
   * match reaches the first digit of the message.
   */
  function FirstDigitRun(s: string): (r: Option<(nat, nat)>)
    ensures r.None? ==> forall k :: 0 <= k < |s| ==> !IsDigit(s[k])
    ensures r.Some? ==> var (b, e) := r.value;
      b < e <= |s| && AllDigits(s[b..e]) && (forall k :: 0 <= k < b ==> !IsDigit(s[k])) && (e < |s| ==> !IsDigit(s[e]))
  {
    match FirstDigitFrom(s, 0)
    case None => None
    case Some(b) => Some((b, RunEnd(s, b)))
  }

  /** `extractAccountID`: the first run of digits as a 64-bit unsigned number, 0 when absent or too large. */
  function ExtractAccountID(message: string): (id: nat)
    ensures id <= MaxUint64
    ensures FirstDigitRun(message).None? ==> id == 0
    ensures FirstDigitRun(message).Some? ==>
      var (b, e) := FirstDigitRun(message).value;
      id == if DecimalValue(message[b..e]) <= MaxUint64 then DecimalValue(message[b..e]) else 0
  {
    match FirstDigitRun(message)
    case None => 0
    case Some((b, e)) =>
      ParseUintAccepts(message[b..e]);
      match ParseUint(message[b..e])
      case Ok(v) => v
      case Err(_) => 0
  }

  /** A run of digits between text without digits and a non-digit is the first digit run. */
  lemma DigitRunBetween(prefix: string, digits: string, suffix: string)
    requires digits != [] && AllDigits(digits)
    requires forall k :: 0 <= k < |prefix| ==> !IsDigit(prefix[k])
    requires suffix == [] || !IsDigit(suffix[0])
    ensures FirstDigitRun(prefix + digits + suffix) == Some((|prefix|, |prefix| + |digits|))
    ensures (prefix + digits + suffix)[|prefix|..|prefix| + |digits|] == digits
  {
    var s := prefix + digits + suffix;
    assert forall k :: 0 <= k < |prefix| ==> s[k] == prefix[k];
    assert forall k :: |prefix| <= k < |prefix| + |digits| ==> s[k] == digits[k - |prefix|];
    assert |prefix| + |digits| < |s| ==> s[|prefix| + |digits|] == suffix[0];
    assert IsDigit(s[|prefix|]);
    var (b, e) := FirstDigitRun(s).value;
    assert b == |prefix|;
    assert e == |prefix| + |digits|;
    assert s[b..e] == digits;
  }

  /** A number written after text without digits, and not followed by a digit, is the account read back. */
  lemma AccountIdRoundTrip(prefix: string, n: nat, suffix: string)
    requires n <= MaxUint64
    requires forall k :: 0 <= k < |prefix| ==> !IsDigit(prefix[k])
    requires suffix == [] || !IsDigit(suffix[0])
    ensures ExtractAccountID(prefix + NatToString(n) + suffix) == n
  {
    DecimalOfNatToString(n);
    DigitRunBetween(prefix, NatToString(n), suffix);
  }

  /** The cents of the optional `.d` or `.dd` after the digits ending at `e`. */
  function FractionCents(s: string, e: nat): (c: nat)
    ensures c < 100
  {
    if e + 1 < |s| && s[e] == '.' && IsDigit(s[e + 1]) then
      DigitValue(s[e + 1]) * 10 + (if e + 2 < |s| && IsDigit(s[e + 2]) then DigitValue(s[e + 2]) else 0)
    else 0
  }

  /**
   * `extractAmount`: the first number, with at most two decimals, in
   * cents; 0 when the message has no digit.
   */
  function ExtractAmount(message: string): (cents: int)
    ensures cents >= 0
    ensures FirstDigitRun(message).None? ==> cents == 0
    ensures FirstDigitRun(message).Some? ==>
      var (b, e) := FirstDigitRun(message).value;
      cents == DecimalValue(message[b..e]) * 100 + FractionCents(message, e)
  {
    match FirstDigitRun(message)
    case None => 0
    case Some((b, e)) => DecimalValue(message[b..e]) * 100 + FractionCents(message, e)
  }

  /** A whole number of dollars after text without digits is read as that many hundred cents. */
  lemma WholeAmount(prefix: string, n: nat, suffix: string)
    requires forall k :: 0 <= k < |prefix| ==> !IsDigit(prefix[k])
    requires suffix == [] || (!IsDigit(suffix[0]) && suffix[0] != '.')
    ensures ExtractAmount(prefix + NatToString(n) + suffix) == 100 * n
  {
    var digits := NatToString(n);
    var s := prefix + digits + suffix;
    DecimalOfNatToString(n);
    DigitRunBetween(prefix, digits, suffix);
    var e := |prefix| + |digits|;
    assert e < |s| ==> s[e] == suffix[0];
    assert FractionCents(s, e) == 0;
  }

  /** RE2's `\s`: tab, newline, form feed, carriage return and space. */
  predicate IsRegexSpace(c: char) {
    c == '\t' || c == '\n' || c == '\U{C}' || c == '\r' || c == ' '
  }

  function SpaceRunEnd(s: string, i: nat): (j: nat)
    requires i <= |s|
    ensures i <= j <= |s|
    ensures forall k :: i <= k < j ==> IsRegexSpace(s[k])
    ensures j < |s| ==> !IsRegexSpace(s[j])
    decreases |s| - i
  {
    if i < |s| && IsRegexSpace(s[i]) then SpaceRunEnd(s, i + 1) else i
  }

  /** Where the digits start when `(last|recent)\s+(\d+)` matches at `p`. */
  function LimitDigitsAt(s: string, p: nat): (r: Option<nat>)
    ensures r.Some? ==> p < r.value < |s| && IsDigit(s[r.value])
  {
    var after := if FoldMatchAt(s, p, "last") then Some(p + 4) else if FoldMatchAt(s, p, "recent") then Some(p + 6) else None;
    match after
    case None => None
    case Some(q) =>
      var e := SpaceRunEnd(s, q);
      if q < e < |s| && IsDigit(s[e]) then Some(e) else None
  }

  /** No match at `p` and none from `p + 1` to `q` means none from `p` to `q`. */
  lemma NoLimitBefore(s: string, p: nat, q: nat)
    requires LimitDigitsAt(s, p).None?
    requires forall q' :: p + 1 <= q' < q ==> LimitDigitsAt(s, q').None?
    ensures forall q' :: p <= q' < q ==> LimitDigitsAt(s, q').None?
  {
    forall q' | p <= q' < q
      ensures LimitDigitsAt(s, q').None?
    {
      if q' > p {
        assert p + 1 <= q' < q;
      }
    }
  }

  /** The leftmost match of the limit pattern at or after `p`: where its digits start. */
  function FindLimit(s: string, p: nat): (r: Option<nat>)
    ensures r.Some? ==>
      exists q :: p <= q && LimitDigitsAt(s, q) == r && (forall q' :: p <= q' < q ==> LimitDigitsAt(s, q').None?)
    ensures r.Some? ==> r.value < |s| && IsDigit(s[r.value])
    ensures r.None? ==> forall q :: p <= q <= |s| ==> LimitDigitsAt(s, q).None?
    decreases |s| - p
  {
    if p > |s| then None
    else if LimitDigitsAt(s, p).Some? then LimitDigitsAt(s, p)
    else
      var r := FindLimit(s, p + 1);
      if r.Some? then
        var q :| p + 1 <= q && LimitDigitsAt(s, q) == r && (forall q' :: p + 1 <= q' < q ==> LimitDigitsAt(s, q').None?);
        NoLimitBefore(s, p, q);
        r
      else r
  }

  const MaxIntentLimit: int := 100

  /**
   * `extractLimit`: the number after the first "last" or "recent", capped
   * at 100; 0 when there is none or it does not fit in an `int`.
   */
  function ExtractLimit(message: string): (limit: int)
    ensures 0 <= limit <= MaxIntentLimit
    ensures FindLimit(message, 0).None? ==> limit == 0
    ensures FindLimit(message, 0).Some? ==>
      var d := FindLimit(message, 0).value;
      var v := DecimalValue(message[d..RunEnd(message, d)]);
      limit == if v > MaxInt64 then 0 else if v > MaxIntentLimit then MaxIntentLimit else v
  {
    match FindLimit(message, 0)
    case None => 0
    case Some(d) =>
      var digits := message[d..RunEnd(message, d)];
      assert digits != [] && AllDigits(digits) by {
        assert digits[0] == message[d];
      }
      AtoiOfAllDigits(digits);
      match Atoi(digits)
      case None => 0
      case Some(v) => if v > MaxIntentLimit then MaxIntentLimit else v
  }

  /** On a non-empty digit string, `Atoi` gives its value when it fits and fails otherwise. */
  lemma AtoiOfAllDigits(t: string)
    requires t != [] && AllDigits(t)
    ensures Atoi(t) == if DecimalValue(t) <= MaxInt64 then Some(DecimalValue(t) as int) else None
  {
    assert IsDigit(t[0]);
  }

  /** `ParseIntent` on the trimmed message, once the intent is known. */
  function Parameters(intent: Intent, message: string): (p: ParsedIntent)
    ensures p.intent == intent
    ensures intent == IntentDeposit || intent == IntentWithdraw ==>
      p == ParsedIntent(intent, ExtractAmount(message), 0, 0)
    ensures intent == IntentTransfer ==>
      p == ParsedIntent(intent, ExtractAmount(message), ExtractAccountID(message), 0)
    ensures intent == IntentHistory ==>
      p.amount == 0 && p.toAccountId == 0 && 1 <= p.limit <= MaxIntentLimit &&
      p.limit == if ExtractLimit(message) == 0 then 10 else ExtractLimit(message)
    ensures intent == IntentBalance || intent == IntentUnknown ==> p == ParsedIntent(intent, 0, 0, 0)
  {
    match intent
    case IntentDeposit => ParsedIntent(intent, ExtractAmount(message), 0, 0)
    case IntentWithdraw => ParsedIntent(intent, ExtractAmount(message), 0, 0)
    case IntentTransfer => ParsedIntent(intent, ExtractAmount(message), ExtractAccountID(message), 0)
    case IntentHistory =>
      var limit := ExtractLimit(message);
      ParsedIntent(intent, 0, 0, if limit == 0 then 10 else limit)
    case _ => ParsedIntent(intent, 0, 0, 0)
  }

  /** `ParseIntent`: trims the message, detects the intent, and extracts only that intent's parameters. */
  method ParseIntent(message: string, matches: Matcher) returns (p: ParsedIntent)
    ensures p.intent == Classify(IntentPatterns, TrimSpace(message), matches)
    ensures p == Parameters(p.intent, TrimSpace(message))
  {
    var trimmed := TrimSpace(message);
    var intent := DetectIntent(trimmed, matches);
    p := Parameters(intent, trimmed);
  }

  /**
   * `ValidateIntent`: deposit and withdraw need a positive amount; transfer
   * needs a positive amount, checked first, and a destination; an unknown
   * intent is an error; balance and history always pass.
   */
  const InvalidAmount := "please specify a valid amount (e.g., '$100' or '50.25')"
  const InvalidTransferAmount := "please specify a valid transfer amount"
  const MissingDestination := "please specify the destination account ID (e.g., 'to account 12345')"
  const UnknownRequest := "I didn't understand that request"

  function ValidateIntent(p: ParsedIntent): (err: Option<string>)
    ensures (p.intent == IntentBalance || p.intent == IntentHistory) ==> err.None?
    ensures p.intent == IntentUnknown ==> err == Some(UnknownRequest)
    ensures (p.intent == IntentDeposit || p.intent == IntentWithdraw) ==> (err.None? <==> p.amount > 0)
    ensures p.intent == IntentTransfer ==> (err.None? <==> p.amount > 0 && p.toAccountId != 0)
    ensures (p.intent == IntentDeposit || p.intent == IntentWithdraw) && p.amount <= 0 ==> err == Some(InvalidAmount)
    ensures p.intent == IntentTransfer && p.amount <= 0 ==> err == Some(InvalidTransferAmount)
    ensures p.intent == IntentTransfer && p.amount > 0 && p.toAccountId == 0 ==> err == Some(MissingDestination)
  {
    match p.intent
    case IntentDeposit =>
      if p.amount <= 0 then Some(InvalidAmount) else None
    case IntentWithdraw =>
      if p.amount <= 0 then Some(InvalidAmount) else None
    case IntentTransfer =>
      if p.amount <= 0 then Some(InvalidTransferAmount)
      else if p.toAccountId == 0 then Some(MissingDestination)
      else None
    case IntentUnknown => Some(UnknownRequest)
    case _ => None
  }

  /** A parsed transfer passes validation exactly when the message names a positive amount and a non-zero account. */
  lemma TransferValidation(message: string)
    ensures ValidateIntent(Parameters(IntentTransfer, message)).None? <==>
      ExtractAmount(message) > 0 && ExtractAccountID(message) != 0
  {
  }
}
