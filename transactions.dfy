/**
 * Ledger records: their kind, their dispute flags, the parsing of one
 * already-split CSV line into a record, and the record iterator that the
 * router drains (src/transaction/mod.rs).
 */
module Transactions {
  import opened Wrappers

  const U16Bound: nat := 0x1_0000
  const U32Bound: nat := 0x1_0000_0000

  newtype u16 = x: int | 0 <= x < 0x1_0000
  newtype u32 = x: int | 0 <= x < 0x1_0000_0000

  /** The record kinds; `Unknown` (the source's `ERR`) stands for every unrecognised keyword. */
  datatype TxType = Deposit | Withdrawal | Dispute | Resolve | Chargeback | Unknown

  /** `Type::from`: the five lower-case keywords, and `Unknown` for anything else. */
  function TypeFrom(keyword: string): (t: TxType)
    ensures t == Deposit <==> keyword == "deposit"
    ensures t == Withdrawal <==> keyword == "withdrawal"
    ensures t == Dispute <==> keyword == "dispute"
    ensures t == Resolve <==> keyword == "resolve"
    ensures t == Chargeback <==> keyword == "chargeback"
  {
    if keyword == "dispute" then Dispute
    else if keyword == "resolve" then Resolve
    else if keyword == "chargeback" then Chargeback
    else if keyword == "deposit" then Deposit
    else if keyword == "withdrawal" then Withdrawal
    else Unknown
  }

  /** The keyword a record kind is written with in the input. */
  function Keyword(t: TxType): (keyword: string)
    requires t != Unknown
    ensures TypeFrom(keyword) == t
  {
    match t
    case Deposit => "deposit"
    case Withdrawal => "withdrawal"
    case Dispute => "dispute"
    case Resolve => "resolve"
    case Chargeback => "chargeback"
  }

  /** The state of a record's three dispute flags, read as one value. */
  datatype DisputeFlag = NoFlag | Disputed | Resolved | ChargedBack

  /**
   * One ledger record. `amount` is present for records read with a fourth
   * field; the three flags are the mutable dispute state kept in history.
   */
  datatype Transaction = Transaction(
    ttype: TxType,
    clientId: u16,
    txId: u32,
    amount: Option<real>,
    disputed: bool,
    resolved: bool,
    chargedBack: bool)
  {
    /** `is_emtpy_flags`: none of the three flags is set. */
    predicate IsEmptyFlags()
      ensures AtMostOneFlag() ==> (IsEmptyFlags() <==> Flag() == NoFlag)
    {
      !disputed && !resolved && !chargedBack
    }

    predicate AtMostOneFlag() {
      (disputed ==> !resolved && !chargedBack) && (resolved ==> !chargedBack)
    }

    /** The flags as one tagged value; defined when at most one is set. */
    function Flag(): DisputeFlag
      requires AtMostOneFlag()
    {
      if disputed then Disputed
      else if resolved then Resolved
      else if chargedBack then ChargedBack
      else NoFlag
    }

    /** Same kind, client, id and amount: only the flags may differ. */
    predicate SameRecord(other: Transaction) {
      ttype == other.ttype && clientId == other.clientId &&
      txId == other.txId && amount == other.amount
    }

    function MarkDisputed(): (t: Transaction)
      ensures t.SameRecord(this) && t.AtMostOneFlag() && t.Flag() == Disputed
      ensures !t.IsEmptyFlags()
    {
      this.(disputed := true, resolved := false, chargedBack := false)
    }

    function MarkResolved(): (t: Transaction)
      ensures t.SameRecord(this) && t.AtMostOneFlag() && t.Flag() == Resolved
      ensures !t.IsEmptyFlags()
    {
      this.(resolved := true, disputed := false, chargedBack := false)
    }

    function MarkChargedBack(): (t: Transaction)
      ensures t.SameRecord(this) && t.AtMostOneFlag() && t.Flag() == ChargedBack
      ensures !t.IsEmptyFlags()
    {
      this.(chargedBack := true, disputed := false, resolved := false)
    }
  }

  /** `Transaction::new_with_amount`: a flag-free record carrying `amount`. */
  function NewWithAmount(ttype: TxType, clientId: u16, txId: u32, amount: real): (t: Transaction)
    ensures t.ttype == ttype && t.clientId == clientId && t.txId == txId
    ensures t.amount == Some(amount)
    ensures t.IsEmptyFlags() && t.AtMostOneFlag() && t.Flag() == NoFlag
  {
    Transaction(ttype, clientId, txId, Some(amount), false, false, false)
  }

  /** `Transaction::new`: a flag-free record without an amount. */
  function New(ttype: TxType, clientId: u16, txId: u32): (t: Transaction)
    ensures t.ttype == ttype && t.clientId == clientId && t.txId == txId
    ensures t.amount == None
    ensures t.IsEmptyFlags() && t.AtMostOneFlag() && t.Flag() == NoFlag
  {
    Transaction(ttype, clientId, txId, None, false, false, false)
  }

  // ---------------------------------------------------------------------
  // Unsigned decimal numbers, as Rust's `str::parse::<u16>` and
  // `str::parse::<u32>` read them: an optional leading '+', then one or
  // more ASCII digits (leading zeros allowed), and a value below the bound.

  predicate IsDigits(s: string) {
    forall i :: 0 <= i < |s| ==> '0' <= s[i] <= '9'
  }

  function DigitValue(c: char): nat
    requires '0' <= c <= '9'
  {
    (c as int) - ('0' as int)
  }

  function DigitChar(d: nat): (c: char)
    requires d < 10
    ensures '0' <= c <= '9' && DigitValue(c) == d
  {
    (('0' as int) + d) as char
  }

  /** The value of a digit string, most significant digit first. */
  function DigitsValue(s: string): nat
    requires IsDigits(s)
    decreases |s|
  {
    if s == [] then 0
    else DigitsValue(s[..|s| - 1]) * 10 + DigitValue(s[|s| - 1])
  }

  function ParseUnsigned(s: string, bound: nat): (r: Option<nat>)
    ensures r.Some? ==> r.value < bound
    ensures r.Some? ==> |s| > 0
  {
    var digits := if |s| > 0 && s[0] == '+' then s[1..] else s;
    if |digits| == 0 || !IsDigits(digits) then None
    else if DigitsValue(digits) < bound then Some(DigitsValue(digits))
    else None
  }

  /** `str::parse::<u16>`: the unsigned parse below 2^16. */
  function ParseU16(s: string): (r: Option<u16>)
    ensures r.Some? <==> ParseUnsigned(s, U16Bound).Some?
    ensures r.Some? ==> ParseUnsigned(s, U16Bound) == Some(r.value as nat)
  {
    match ParseUnsigned(s, U16Bound)
    case Some(v) => Some(v as u16)
    case None => None
  }

  /** `str::parse::<u32>`: the unsigned parse below 2^32. */
  function ParseU32(s: string): (r: Option<u32>)
    ensures r.Some? <==> ParseUnsigned(s, U32Bound).Some?
    ensures r.Some? ==> ParseUnsigned(s, U32Bound) == Some(r.value as nat)
  {
    match ParseUnsigned(s, U32Bound)
    case Some(v) => Some(v as u32)
    case None => None
  }

  /** The shortest decimal writing of `n`. */
  function ToDecimal(n: nat): (s: string)
    ensures |s| > 0 && IsDigits(s)
    decreases n
  {
    if n < 10 then [DigitChar(n)] else ToDecimal(n / 10) + [DigitChar(n % 10)]
  }

  lemma {:induction false} DigitsValueOfDecimal(n: nat)
    ensures DigitsValue(ToDecimal(n)) == n
    decreases n
  {
    var s := ToDecimal(n);
    if n < 10 {
      assert s[..0] == [];
    } else {
      var prefix := ToDecimal(n / 10);
      assert s[..|s| - 1] == prefix;
      DigitsValueOfDecimal(n / 10);
    }
  }

  /** Writing a number in decimal and parsing it back gives the number. */
  lemma ParseUnsignedRoundTrip(n: nat, bound: nat)
    requires n < bound
    ensures ParseUnsigned(ToDecimal(n), bound) == Some(n)
  {
    DigitsValueOfDecimal(n);
    var s := ToDecimal(n);
    assert s[0] != '+';
  }

  /** Every client id, written in decimal, parses back to itself. */
  lemma ParseU16RoundTrip(n: u16)
    ensures ParseU16(ToDecimal(n as nat)) == Some(n)
  {
    ParseUnsignedRoundTrip(n as nat, U16Bound);
  }

  /** Every transaction id, written in decimal, parses back to itself. */
  lemma ParseU32RoundTrip(n: u32)
    ensures ParseU32(ToDecimal(n as nat)) == Some(n)
  {
    ParseUnsignedRoundTrip(n as nat, U32Bound);
  }

  // ---------------------------------------------------------------------
  // `Transaction::from`, over the fields the CSV reader split the line into.

  /**
   * A line as the CSV reader hands it over: the fields of its record, or
   * None when the reader yields no record or reports an error.
   */
  type Line = Option<seq<string>>

  datatype Parsed = Parsed(tx: Transaction) | InvalidRecord {
    function ToOption(): Option<Transaction> {
      match this
      case Parsed(tx) => Some(tx)
      case InvalidRecord => None
    }
  }

  function FromFields(line: Line, parseAmount: string -> Option<real>): (r: Parsed)
    ensures r.Parsed? ==> r.tx.IsEmptyFlags() && r.tx.ttype != Unknown
  {
    match line
    case None => InvalidRecord
    case Some(fields) =>
      if |fields| < 3 then InvalidRecord
      else
        var ttype := TypeFrom(fields[0]);
        if ttype == Unknown then InvalidRecord
        else match ParseU16(fields[1])
          case None => InvalidRecord
          case Some(clientId) =>
            match ParseU32(fields[2])
            case None => InvalidRecord
            case Some(txId) =>
              if |fields| == 4 then
                match parseAmount(fields[3])
                case None => InvalidRecord
                case Some(amount) => Parsed(NewWithAmount(ttype, clientId, txId, amount))
              else Parsed(New(ttype, clientId, txId))
  }

  /**
   * A line is rejected exactly when one of the checks fails: no record,
   * fewer than three fields, an unknown kind, a client or tx id that does
   * not parse, or a fourth field that is not a number.
   */
  lemma FromFieldsRejects(line: Line, parseAmount: string -> Option<real>)
    ensures FromFields(line, parseAmount) == InvalidRecord <==>
      || line.None?
      || |line.value| < 3
      || TypeFrom(line.value[0]) == Unknown
      || ParseU16(line.value[1]).None?
      || ParseU32(line.value[2]).None?
      || (|line.value| == 4 && parseAmount(line.value[3]).None?)
  {
  }

  /**
   * An accepted line gives a flag-free record with the parsed kind, client
   * and id; it carries an amount exactly when the line has four fields,
   * whatever its kind.
   */
  lemma FromFieldsAccepts(line: Line, parseAmount: string -> Option<real>)
    requires FromFields(line, parseAmount).Parsed?
    ensures var fields, tx := line.value, FromFields(line, parseAmount).tx;
      && |fields| >= 3
      && tx.ttype == TypeFrom(fields[0])
      && ParseU16(fields[1]) == Some(tx.clientId)
      && ParseU32(fields[2]) == Some(tx.txId)
      && tx.amount == (if |fields| == 4 then parseAmount(fields[3]) else None)
      && tx.IsEmptyFlags()
  {
  }

  /** The fields a flag-free record is written as. */
  function ToFields(tx: Transaction, showAmount: real -> string): seq<string>
    requires tx.ttype != Unknown
  {
    [Keyword(tx.ttype), ToDecimal(tx.clientId as nat), ToDecimal(tx.txId as nat)] +
    (match tx.amount case Some(a) => [showAmount(a)] case None => [])
  }

  /** Writing a flag-free record out and parsing it back gives the record. */
  lemma FromFieldsRoundTrip(tx: Transaction, parseAmount: string -> Option<real>, showAmount: real -> string)
    requires tx.ttype != Unknown && tx.IsEmptyFlags()
    requires tx.amount.Some? ==> parseAmount(showAmount(tx.amount.value)) == tx.amount
    ensures FromFields(Some(ToFields(tx, showAmount)), parseAmount) == Parsed(tx)
  {
    ParseU16RoundTrip(tx.clientId);
    ParseU32RoundTrip(tx.txId);
  }

  /** The cases of the source's own parsing tests, and a short deposit. */
  lemma FromFieldsExamples(parseAmount: string -> Option<real>)
    requires parseAmount("1.0") == Some(1.0)
    ensures FromFields(Some(["deposit", "1", "1", "1.0"]), parseAmount)
         == Parsed(NewWithAmount(Deposit, 1, 1, 1.0))
    ensures FromFields(Some(["resolve", "1", "1"]), parseAmount) == Parsed(New(Resolve, 1, 1))
    ensures FromFields(None, parseAmount) == InvalidRecord
    ensures FromFields(Some(["Dispute", "1", "1", "1.0"]), parseAmount) == InvalidRecord
    ensures FromFields(Some(["1", "1", "1.0"]), parseAmount) == InvalidRecord
    ensures FromFields(Some(["dispute", "1.0", "1", "1.0"]), parseAmount) == InvalidRecord
    ensures FromFields(Some(["deposit", "1", "1"]), parseAmount) == Parsed(New(Deposit, 1, 1))
  {
    assert ParseU16("1") == Some(1) by { ParseU16RoundTrip(1); assert ToDecimal(1) == "1"; }
    assert ParseU32("1") == Some(1) by { ParseU32RoundTrip(1); assert ToDecimal(1) == "1"; }
    assert !IsDigits("1.0") by { assert "1.0"[1] == '.'; }
  }

  // ---------------------------------------------------------------------
  // The record stream.

  /**
   * The records the router receives: the parsed lines up to, and not
   * including, the first line that does not parse.
   */
  function Accepted(lines: seq<Line>, parseAmount: string -> Option<real>): (recs: seq<Transaction>)
    ensures |recs| <= |lines|
    ensures forall i :: 0 <= i < |recs| ==> FromFields(lines[i], parseAmount) == Parsed(recs[i])
    ensures |recs| < |lines| ==> FromFields(lines[|recs|], parseAmount) == InvalidRecord
    decreases |lines|
  {
    if lines == [] then []
    else match FromFields(lines[0], parseAmount)
      case InvalidRecord => []
      case Parsed(tx) => [tx] + Accepted(lines[1..], parseAmount)
  }

  /** Whatever follows a malformed line is never delivered. */
  lemma {:induction false} MalformedLineEndsStream(good: seq<Line>, bad: Line, rest: seq<Line>,
                                                   parseAmount: string -> Option<real>)
    requires FromFields(bad, parseAmount) == InvalidRecord
    ensures Accepted(good + [bad] + rest, parseAmount) == Accepted(good + [bad], parseAmount)
    decreases |good|
  {
    if good == [] {
      assert (good + [bad] + rest)[0] == bad;
      assert (good + [bad])[0] == bad;
    } else {
      assert (good + [bad] + rest)[0] == good[0] == (good + [bad])[0];
      assert (good + [bad] + rest)[1..] == good[1..] + [bad] + rest;
      assert (good + [bad])[1..] == good[1..] + [bad];
      MalformedLineEndsStream(good[1..], bad, rest, parseAmount);
    }
  }

  /** The iterator's example input: three records, then a line of an unknown kind. */
  lemma IteratorExample(parseAmount: string -> Option<real>)
    requires parseAmount("1.0") == Some(1.0)
    ensures Accepted([Some(["deposit", "0", "0", "1.0"]), Some(["dispute", "0", "0"]),
                      Some(["resolve", "0", "0"]), Some(["error", "0", "0"])], parseAmount)
         == [NewWithAmount(Deposit, 0, 0, 1.0), New(Dispute, 0, 0), New(Resolve, 0, 0)]
  {
    var lines := [Some(["deposit", "0", "0", "1.0"]), Some(["dispute", "0", "0"]),
                  Some(["resolve", "0", "0"]), Some(["error", "0", "0"])];
    assert ParseU16("0") == Some(0) by { ParseU16RoundTrip(0); assert ToDecimal(0) == "0"; }
    assert ParseU32("0") == Some(0) by { ParseU32RoundTrip(0); assert ToDecimal(0) == "0"; }
    assert FromFields(lines[0], parseAmount) == Parsed(NewWithAmount(Deposit, 0, 0, 1.0));
    assert FromFields(lines[1], parseAmount) == Parsed(New(Dispute, 0, 0));
    assert FromFields(lines[2], parseAmount) == Parsed(New(Resolve, 0, 0));
    assert FromFields(lines[3], parseAmount) == InvalidRecord;
    assert |Accepted(lines, parseAmount)| == 3;
  }

  /**
   * `TransactionIterator`: yields the record of each successive line, and
   * None for a malformed line or at the end of the input.
   */
  class TransactionIterator {
    const lines: seq<Line>
    const parseAmount: string -> Option<real>
    var pos: nat

    ghost predicate Valid() reads this {
      pos <= |lines|
    }

    constructor (lines: seq<Line>, parseAmount: string -> Option<real>)
      ensures Valid() && this.lines == lines && this.parseAmount == parseAmount && pos == 0
    {
      this.lines := lines;
      this.parseAmount := parseAmount;
      pos := 0;
    }

    method Next() returns (r: Option<Transaction>)
      requires Valid()
      modifies this
      ensures Valid()
      ensures old(pos) < |lines| ==> pos == old(pos) + 1 && r == FromFields(lines[old(pos)], parseAmount).ToOption()
      ensures old(pos) == |lines| ==> pos == old(pos) && r == None
    {
      if pos == |lines| {
        return None;
      }
      r := FromFields(lines[pos], parseAmount).ToOption();
      pos := pos + 1;
    }
  }
}
