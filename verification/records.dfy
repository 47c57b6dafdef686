/**
 * The audit record of one money movement (a row of the `transactions` table),
 * its creation defaults, the Base16 storage of the 128-bit ledger transfer ID
 * and the enriched response object.
 */
module Records {
  import opened Wrappers

  /** Go's `byte`. */
  type Byte = b: int | 0 <= b < 256

  /** A UUID, as its 128-bit value; 0 is `uuid.Nil`. */
  type Uuid = nat

  const NilUuid: Uuid := 0

  datatype TxType = Deposit | Withdraw | Transfer

  /** `Unset` is the empty status string a record has before its defaults are applied. */
  datatype TxStatus = Unset | Pending | Completed | Failed

  /** The stored spelling of a type; the column only admits these three. */
  function TypeName(t: TxType): (s: string)
    ensures s in {"deposit", "withdraw", "transfer"}
  {
    match t
    case Deposit => "deposit"
    case Withdraw => "withdraw"
    case Transfer => "transfer"
  }

  /** The stored spelling of a status; `Unset` is the empty string. */
  function StatusName(st: TxStatus): (s: string)
    ensures s == "" <==> st == Unset
    ensures st != Unset ==> s in {"pending", "completed", "failed"}
  {
    match st
    case Unset => ""
    case Pending => "pending"
    case Completed => "completed"
    case Failed => "failed"
  }

  /** One row of the audit table. Timestamps are abstract clock readings. */
  datatype Transaction = Transaction(
    id: Uuid,
    userId: Uuid,
    recipientUserId: Option<Uuid>,
    kind: TxType,
    amount: int,
    status: TxStatus,
    debitAccountId: nat,
    creditAccountId: nat,
    transferIdHex: string,
    description: string,
    createdAt: int,
    updatedAt: int)

  /**
   * What the table's constraints admit: a positive amount, one of the three
   * statuses, and a transfer ID that fits its 32-character column.
   * (The type is one of the three by construction of `TxType`.)
   */
  predicate WellFormed(t: Transaction) {
    t.amount > 0 && t.status != Unset && |t.transferIdHex| <= 32
  }

  // ---------------------------------------------------------------------
  // Base16 (section 8 of RFC 4648), as Go's encoding/hex does it
  // ---------------------------------------------------------------------

  predicate IsHexChar(c: char) {
    ('0' <= c <= '9') || ('a' <= c <= 'f') || ('A' <= c <= 'F')
  }

  predicate IsLowerHexChar(c: char) {
    ('0' <= c <= '9') || ('a' <= c <= 'f')
  }

  predicate AllHex(s: string) {
    forall i :: 0 <= i < |s| ==> IsHexChar(s[i])
  }

  /** The lower-case digit for a nibble. */
  function HexDigit(n: nat): (c: char)
    requires n < 16
    ensures IsLowerHexChar(c)
  {
    if n < 10 then ('0' as int + n) as char else ('a' as int + n - 10) as char
  }

  /** The nibble a digit of either case stands for. */
  function HexValue(c: char): (v: nat)
    requires IsHexChar(c)
    ensures v < 16
    ensures IsLowerHexChar(c) ==> HexDigit(v) == c
  {
    if '0' <= c <= '9' then c as int - '0' as int
    else if 'a' <= c <= 'f' then c as int - 'a' as int + 10
    else c as int - 'A' as int + 10
  }

  /** `hex.EncodeToString`: two lower-case digits per byte, high nibble first. */
  function EncodeHex(bytes: seq<Byte>): (r: string)
    ensures |r| == 2 * |bytes|
    ensures forall i :: 0 <= i < |r| ==> IsLowerHexChar(r[i])
  {
    if bytes == [] then []
    else [HexDigit(bytes[0] / 16), HexDigit(bytes[0] % 16)] + EncodeHex(bytes[1..])
  }

  /**
   * The first byte of a character's UTF-8 encoding. Go decodes the bytes of
   * the string, and every character before the first bad one is a one-byte
   * hex digit, so the bad byte it reports is this byte of the first bad
   * character.
   */
  function Utf8LeadByte(c: char): (b: Byte)
    ensures c as int < 0x80 ==> b == c as int
    ensures c as int >= 0x80 ==> 0xC0 <= b
  {
    var n := c as int;
    if n < 0x80 then n
    else if n < 0x800 then 0xC0 + n / 0x40
    else if n < 0x1_0000 then 0xE0 + n / 0x1000
    else 0xF0 + n / 0x4_0000
  }

  /** The two errors of `hex.DecodeString`; an invalid byte carries its value. */
  datatype HexError = InvalidByte(b: Byte) | OddLength

  /**
   * `hex.DecodeString`: pairs are decoded left to right and the first bad
   * character is reported by its first byte; a lone trailing digit is an
   * odd-length error, unless it is itself not a digit.
   */
  function DecodeHex(s: string): (r: Result<seq<Byte>, HexError>)
    ensures r.Ok? ==> 2 * |r.value| == |s|
    ensures r.Err? && r.error.InvalidByte? ==>
      exists i :: 0 <= i < |s| && !IsHexChar(s[i]) && AllHex(s[..i]) && r.error.b == Utf8LeadByte(s[i])
    decreases |s|
  {
    if |s| == 0 then Ok([])
    else if |s| == 1 then (if IsHexChar(s[0]) then Err(OddLength) else Err(InvalidByte(Utf8LeadByte(s[0]))))
    else if !IsHexChar(s[0]) then Err(InvalidByte(Utf8LeadByte(s[0])))
    else if !IsHexChar(s[1]) then
      assert AllHex(s[..1]);
      Err(InvalidByte(Utf8LeadByte(s[1])))
    else
      match DecodeHex(s[2..])
      case Err(e) =>
        if e.InvalidByte? then BadByteAfterPair(s, e.b); Err(e) else Err(e)
      case Ok(rest) => Ok([HexValue(s[0]) * 16 + HexValue(s[1])] + rest)
  }

  /** A bad character after a leading pair of digits is the first bad one of the whole text too. */
  lemma BadByteAfterPair(s: string, b: Byte)
    requires |s| >= 2 && IsHexChar(s[0]) && IsHexChar(s[1])
    requires exists i :: 0 <= i < |s[2..]| && !IsHexChar(s[2..][i]) && AllHex(s[2..][..i]) && b == Utf8LeadByte(s[2..][i])
    ensures exists i :: 0 <= i < |s| && !IsHexChar(s[i]) && AllHex(s[..i]) && b == Utf8LeadByte(s[i])
  {
    var i :| 0 <= i < |s[2..]| && !IsHexChar(s[2..][i]) && AllHex(s[2..][..i]) && b == Utf8LeadByte(s[2..][i]);
    assert s[..i + 2] == s[..2] + s[2..][..i];
    assert AllHex(s[..i + 2]);
  }

  /** A non-ASCII character is reported by its UTF-8 lead byte: "é" gives 0xC3. */
  lemma DecodeHexReportsLeadByte()
    ensures DecodeHex("\U{E9}") == Err(InvalidByte(0xC3))
    ensures DecodeHex("a\U{E9}") == Err(InvalidByte(0xC3))
  {
  }

  /** Decoding succeeds exactly on even-length strings of hex digits. */
  lemma {:induction false} DecodeHexAccepts(s: string)
    ensures DecodeHex(s).Ok? <==> |s| % 2 == 0 && AllHex(s)
    decreases |s|
  {
    if |s| >= 2 {
      DecodeHexAccepts(s[2..]);
      if IsHexChar(s[0]) && IsHexChar(s[1]) && AllHex(s[2..]) {
        forall i | 0 <= i < |s| ensures IsHexChar(s[i]) {
          if i >= 2 { assert s[i] == s[2..][i - 2]; }
        }
      }
      if AllHex(s) {
        forall i | 0 <= i < |s| - 2 ensures IsHexChar(s[2..][i]) {
          assert s[2..][i] == s[i + 2];
        }
      }
    }
  }

  /** Base16 round trip: decoding an encoding gives back the bytes. */
  lemma {:induction false} DecodeEncode(bytes: seq<Byte>)
    ensures DecodeHex(EncodeHex(bytes)) == Ok(bytes)
  {
    if bytes != [] {
      var hi, lo := HexDigit(bytes[0] / 16), HexDigit(bytes[0] % 16);
      var s := EncodeHex(bytes);
      assert s == [hi, lo] + EncodeHex(bytes[1..]);
      assert s[2..] == EncodeHex(bytes[1..]);
      DecodeEncode(bytes[1..]);
      assert HexValue(hi) == bytes[0] / 16 && HexValue(lo) == bytes[0] % 16;
      assert [bytes[0]] + bytes[1..] == bytes;
    }
  }

  // ---------------------------------------------------------------------
  // The 128-bit ledger transfer ID as stored text
  // ---------------------------------------------------------------------

  /** A transfer ID is stored as the Base16 text of its 16-byte image. */
  const TransferIdBytes := 16

  /**
   * `Uint128ToHex`: `image` is the 16-byte, zero-padded big-endian image the
   * arithmetic library fills in for the ID; the text is always 32 digits.
   */
  function Uint128ToHex(image: seq<Byte>): (r: string)
    requires |image| == TransferIdBytes
    ensures |r| == 2 * TransferIdBytes
    ensures forall i :: 0 <= i < |r| ==> IsLowerHexChar(r[i])
  {
    EncodeHex(image)
  }

  /** Why stored text is not a transfer ID: bad Base16, or not 16 bytes. */
  datatype IdError = Malformed(cause: HexError) | InvalidLength(got: nat)

  /**
   * `HexToUint128`: the 16 bytes handed to the library's byte-to-ID
   * conversion. The Base16 error comes first; the length check second.
   */
  function HexToUint128(s: string): (r: Result<seq<Byte>, IdError>)
    ensures r.Ok? ==> |r.value| == TransferIdBytes
    ensures r.Err? && r.error.InvalidLength? ==> r.error.got != TransferIdBytes && |s| == 2 * r.error.got
  {
    match DecodeHex(s)
    case Err(e) => Err(Malformed(e))
    case Ok(bytes) => if |bytes| != TransferIdBytes then Err(InvalidLength(|bytes|)) else Ok(bytes)
  }

  /** The stored ID text is accepted exactly when it is 32 hex digits. */
  lemma HexToUint128Accepts(s: string)
    ensures HexToUint128(s).Ok? <==> |s| == 2 * TransferIdBytes && AllHex(s)
  {
    DecodeHexAccepts(s);
  }

  /** A non-hex character anywhere is a Base16 error, never a length error. */
  lemma HexToUint128RejectsNonHex(s: string, i: nat)
    requires i < |s| && !IsHexChar(s[i])
    ensures HexToUint128(s).Err? && HexToUint128(s).error.Malformed?
  {
    DecodeHexAccepts(s);
  }

  /** Even-length hex text of the wrong size is an invalid-length error. */
  lemma HexToUint128WrongLength(s: string)
    requires |s| % 2 == 0 && AllHex(s) && |s| != 2 * TransferIdBytes
    ensures HexToUint128(s) == Err(InvalidLength(|s| / 2))
  {
    DecodeHexAccepts(s);
  }

  /** Storing and reading back an ID image gives the same 16 bytes. */
  lemma TransferIdRoundTrip(image: seq<Byte>)
    requires |image| == TransferIdBytes
    ensures HexToUint128(Uint128ToHex(image)) == Ok(image)
  {
    DecodeEncode(image);
  }

  // ---------------------------------------------------------------------
  // The record being built by the service, changed in place
  // ---------------------------------------------------------------------

  class TransactionRecord {
    var id: Uuid
    var userId: Uuid
    var recipientUserId: Option<Uuid>
    var kind: TxType
    var amount: int
    var status: TxStatus
    var debitAccountId: nat
    var creditAccountId: nat
    var transferIdHex: string
    var description: string
    var createdAt: int
    var updatedAt: int

    /** The row this record would be stored as. */
    function Value(): Transaction
      reads this
    {
      Transaction(id, userId, recipientUserId, kind, amount, status, debitAccountId,
                  creditAccountId, transferIdHex, description, createdAt, updatedAt)
    }

    /** A struct literal: every field as given. */
    constructor (v: Transaction)
      ensures Value() == v
    {
      id, userId, recipientUserId, kind := v.id, v.userId, v.recipientUserId, v.kind;
      amount, status, debitAccountId, creditAccountId := v.amount, v.status, v.debitAccountId, v.creditAccountId;
      transferIdHex, description, createdAt, updatedAt := v.transferIdHex, v.description, v.createdAt, v.updatedAt;
    }

    /**
     * The creation hook: a nil ID gets `freshId` (a random version-4 UUID,
     * never nil) and an empty status becomes pending; nothing else changes.
     */
    method BeforeCreate(freshId: Uuid)
      requires freshId != NilUuid
      modifies this
      ensures id != NilUuid && status != Unset
      ensures old(id) != NilUuid ==> id == old(id)
      ensures old(id) == NilUuid ==> id == freshId
      ensures status == if old(status) == Unset then Pending else old(status)
      ensures Value() == old(Value()).(id := id, status := status)
    {
      if id == NilUuid {
        id := freshId;
      }
      if status == Unset {
        status := Pending;
      }
    }

    /** Stores the Base16 text of the transfer ID's 16-byte image. */
    method SetTigerBeetleTransferID(image: seq<Byte>)
      requires |image| == TransferIdBytes
      modifies this
      ensures Value() == old(Value()).(transferIdHex := Uint128ToHex(image))
      ensures HexToUint128(transferIdHex) == Ok(image)
    {
      transferIdHex := Uint128ToHex(image);
      TransferIdRoundTrip(image);
    }

    /** Reads the stored transfer ID back; fails as `HexToUint128` does. */
    function GetTigerBeetleTransferID(): (r: Result<seq<Byte>, IdError>)
      reads this
      ensures r.Ok? <==> |transferIdHex| == 2 * TransferIdBytes && AllHex(transferIdHex)
      ensures r.Ok? ==> |r.value| == TransferIdBytes
      ensures r.Ok? && AllLower(transferIdHex) ==> Uint128ToHex(r.value) == transferIdHex
    {
      HexToUint128Accepts(transferIdHex);
      var r := HexToUint128(transferIdHex);
      if r.Ok? then EncodeDecode(transferIdHex); r else r
    }
  }

  predicate AllLower(s: string) {
    forall i :: 0 <= i < |s| ==> IsLowerHexChar(s[i])
  }

  /** Lower-case hex text is the encoding of what it decodes to. */
  lemma {:induction false} EncodeDecode(s: string)
    requires DecodeHex(s).Ok?
    ensures AllLower(s) ==> EncodeHex(DecodeHex(s).value) == s
    decreases |s|
  {
    if |s| >= 2 && AllLower(s) {
      assert AllLower(s[2..]) by {
        forall i | 0 <= i < |s| - 2 ensures IsLowerHexChar(s[2..][i]) {
          assert s[2..][i] == s[i + 2];
        }
      }
      EncodeDecode(s[2..]);
      var b := DecodeHex(s).value;
      var hi, lo := HexValue(s[0]), HexValue(s[1]);
      assert b == [hi * 16 + lo] + DecodeHex(s[2..]).value;
      assert b[0] / 16 == hi && b[0] % 16 == lo;
      assert b[1..] == DecodeHex(s[2..]).value;
      assert s == [s[0], s[1]] + s[2..];
    }
  }

  // ---------------------------------------------------------------------
  // The response object
  // ---------------------------------------------------------------------

  /** The recipient's e-mail and full name, when the recipient user was loaded. */
  datatype Profile = Profile(email: string, fullName: string)

  datatype TransactionDto = TransactionDto(
    id: Uuid,
    userId: Uuid,
    recipientUserId: Option<Uuid>,
    kind: TxType,
    amount: int,
    status: TxStatus,
    debitAccountId: nat,
    creditAccountId: nat,
    transferIdHex: string,
    description: string,
    createdAt: int,
    updatedAt: int,
    recipientEmail: string,
    recipientName: string)

  /** The row fields a response object carries. */
  function RowOf(d: TransactionDto): Transaction {
    Transaction(d.id, d.userId, d.recipientUserId, d.kind, d.amount, d.status, d.debitAccountId,
                d.creditAccountId, d.transferIdHex, d.description, d.createdAt, d.updatedAt)
  }

  /**
   * `ToDTO`: every row field is carried over unchanged, and the recipient's
   * e-mail and name are filled in only when the recipient user is present.
   */
  function ToDto(t: Transaction, recipient: Option<Profile>): (d: TransactionDto)
    ensures RowOf(d) == t
    ensures recipient.None? ==> d.recipientEmail == "" && d.recipientName == ""
    ensures recipient.Some? ==> d.recipientEmail == recipient.value.email && d.recipientName == recipient.value.fullName
  {
    var email := if recipient.Some? then recipient.value.email else "";
    var name := if recipient.Some? then recipient.value.fullName else "";
    TransactionDto(t.id, t.userId, t.recipientUserId, t.kind, t.amount, t.status, t.debitAccountId,
                   t.creditAccountId, t.transferIdHex, t.description, t.createdAt, t.updatedAt, email, name)
  }
}
