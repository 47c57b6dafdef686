/**
 * Go's decimal integer parsing as the chat layer uses it: `strconv.ParseUint`
 * in base 10 with 64 bits, and `strconv.Atoi` on a 64-bit platform, each
 * against a reference value of a digit string.
 */
module Numbers {
  import opened Wrappers
  import opened Text

  const MinInt64: int := -0x8000_0000_0000_0000
  const MaxInt64: int := 0x7FFF_FFFF_FFFF_FFFF
  const MaxUint64: int := 0xFFFF_FFFF_FFFF_FFFF
  const TwoTo64: int := 0x1_0000_0000_0000_0000

  /**
   * Go's arithmetic on 64-bit `int`: the exact result wrapped into the
   * int64 range, which it already is when it fits.
   */
  function WrapInt64(x: int): (r: int)
    ensures MinInt64 <= r <= MaxInt64
    ensures (r - x) % TwoTo64 == 0
    ensures MinInt64 <= x <= MaxInt64 ==> r == x
  {
    (x - MinInt64) % TwoTo64 + MinInt64
  }

  predicate IsDigit(c: char) {
    '0' <= c <= '9'
  }

  predicate AllDigits(s: string) {
    forall i :: 0 <= i < |s| ==> IsDigit(s[i])
  }

  function DigitValue(c: char): (d: nat)
    requires IsDigit(c)
    ensures d < 10
  {
    (c as int) - ('0' as int)
  }

  /** The number a string of decimal digits denotes, read most significant digit first. */
  function DecimalValue(s: string): nat
    requires AllDigits(s)
  {
    if s == [] then 0 else DecimalValue(s[..|s| - 1]) * 10 + DigitValue(s[|s| - 1])
  }

  /** Why `strconv` refused a number: a character that is not a digit, or a value too large. */
  datatype NumErr = ErrSyntax | ErrRange

  /**
   * The digit loop of `ParseUint`: left to right, a non-digit is a syntax
   * error and the first digit that takes the value past 64 bits a range
   * error, whichever comes first.
   */
  function ScanUint(s: string, acc: nat): (r: Result<nat, NumErr>)
    decreases |s|
  {
    if s == [] then Ok(acc)
    else if !IsDigit(s[0]) then Err(ErrSyntax)
    else
      var n := acc * 10 + DigitValue(s[0]);
      if n > MaxUint64 then Err(ErrRange) else ScanUint(s[1..], n)
  }

  /** `strconv.ParseUint(s, 10, 64)`: the empty string is a syntax error. */
  function ParseUint(s: string): (r: Result<nat, NumErr>)
    ensures r.Ok? ==> r.value <= MaxUint64
  {
    if s == [] then Err(ErrSyntax) else ScanUintBound(s, 0); ScanUint(s, 0)
  }

  /** A successful scan stays within 64 bits. */
  lemma {:induction false} ScanUintBound(s: string, acc: nat)
    requires acc <= MaxUint64
    ensures ScanUint(s, acc).Ok? ==> ScanUint(s, acc).value <= MaxUint64
    decreases |s|
  {
    if s != [] && IsDigit(s[0]) {
      var n := acc * 10 + DigitValue(s[0]);
      if n <= MaxUint64 {
        ScanUintBound(s[1..], n);
      }
    }
  }

  /** Scanning a concatenation scans the first part, then the rest from where it stopped. */
  lemma {:induction false} ScanUintAppend(s: string, t: string, acc: nat)
    ensures ScanUint(s + t, acc) == if ScanUint(s, acc).Ok? then ScanUint(t, ScanUint(s, acc).value) else ScanUint(s, acc)
    decreases |s|
  {
    if s == [] {
      assert s + t == t;
    } else {
      assert (s + t)[0] == s[0] && (s + t)[1..] == s[1..] + t;
      if IsDigit(s[0]) && acc * 10 + DigitValue(s[0]) <= MaxUint64 {
        ScanUintAppend(s[1..], t, acc * 10 + DigitValue(s[0]));
      }
    }
  }

  /** On digit strings the scan computes the reference value, or fails exactly when it is too large. */
  lemma {:induction false} ScanUintValue(s: string)
    requires AllDigits(s)
    ensures DecimalValue(s) <= MaxUint64 ==> ScanUint(s, 0) == Ok(DecimalValue(s))
    ensures DecimalValue(s) > MaxUint64 ==> ScanUint(s, 0) == Err(ErrRange)
    decreases |s|
  {
    if s != [] {
      var p, c := s[..|s| - 1], s[|s| - 1];
      assert s == p + [c];
      assert AllDigits(p);
      ScanUintValue(p);
      ScanUintAppend(p, [c], 0);
      var v := DecimalValue(p) * 10 + DigitValue(c);
      if DecimalValue(p) <= MaxUint64 {
        assert ScanUint([c], DecimalValue(p)) == if v > MaxUint64 then Err(ErrRange) else Ok(v);
      }
    }
  }

  /** A string that is not all digits never parses. */
  lemma {:induction false} ScanUintRejectsNonDigit(s: string, acc: nat, i: int)
    requires 0 <= i < |s| && !IsDigit(s[i])
    ensures ScanUint(s, acc).Err?
    decreases |s|
  {
    if IsDigit(s[0]) && acc * 10 + DigitValue(s[0]) <= MaxUint64 {
      ScanUintRejectsNonDigit(s[1..], acc * 10 + DigitValue(s[0]), i - 1);
    }
  }

  /** `ParseUint` accepts exactly the non-empty digit strings whose value fits in 64 bits, and yields that value. */
  lemma ParseUintAccepts(s: string)
    ensures ParseUint(s).Ok? <==> s != [] && AllDigits(s) && DecimalValue(s) <= MaxUint64
    ensures ParseUint(s).Ok? ==> ParseUint(s).value == DecimalValue(s)
  {
    if s != [] {
      if AllDigits(s) {
        ScanUintValue(s);
      } else {
        var i :| 0 <= i < |s| && !IsDigit(s[i]);
        ScanUintRejectsNonDigit(s, 0, i);
      }
    }
  }

  /** `%d` rendering reads back as the same number. */
  lemma {:induction false} DecimalOfNatToString(n: nat)
    ensures AllDigits(NatToString(n)) && DecimalValue(NatToString(n)) == n
    decreases n
  {
    var s := NatToString(n);
    if n >= 10 {
      DecimalOfNatToString(n / 10);
      assert s[..|s| - 1] == NatToString(n / 10);
    }
  }

  /** Every 64-bit unsigned number survives `%d` followed by `ParseUint`. */
  lemma ParseUintRoundTrip(n: nat)
    requires n <= MaxUint64
    ensures ParseUint(NatToString(n)) == Ok(n)
  {
    DecimalOfNatToString(n);
    ScanUintValue(NatToString(n));
  }

  /**
   * `strconv.Atoi` on a 64-bit platform: an optional sign, then at least
   * one digit and nothing else, with a value that fits in 64 bits.
   */
  function Atoi(s: string): (r: Option<int>)
    ensures r.Some? ==> MinInt64 <= r.value <= MaxInt64
    ensures r.Some? ==> s != [] && (IsDigit(s[0]) || s[0] == '-' || s[0] == '+')
  {
    if s == [] then None
    else
      var neg := s[0] == '-';
      var body := if s[0] == '-' || s[0] == '+' then s[1..] else s;
      if body == [] || !AllDigits(body) then None
      else
        var v: int := if neg then -(DecimalValue(body) as int) else DecimalValue(body);
        if MinInt64 <= v <= MaxInt64 then Some(v) else None
  }

  lemma AtoiOfDigits(t: string)
    requires t != [] && AllDigits(t) && DecimalValue(t) <= MaxInt64
    ensures Atoi(t) == Some(DecimalValue(t))
  {
    assert IsDigit(t[0]);
  }

  lemma AtoiOfNegatedDigits(t: string)
    requires t != [] && AllDigits(t) && DecimalValue(t) <= -MinInt64
    ensures Atoi("-" + t) == Some(-(DecimalValue(t) as int))
  {
    var s := "-" + t;
    assert s[0] == '-' && s[1..] == t;
  }

  /** Every 64-bit integer survives `%d` followed by `Atoi`. */
  lemma AtoiRoundTrip(n: int)
    requires MinInt64 <= n <= MaxInt64
    ensures Atoi(IntToString(n)) == Some(n)
  {
    if n < 0 {
      DecimalOfNatToString(-n);
      AtoiOfNegatedDigits(NatToString(-n));
    } else {
      DecimalOfNatToString(n);
      AtoiOfDigits(NatToString(n));
    }
  }
}
