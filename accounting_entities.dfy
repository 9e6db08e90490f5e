/**
 * Double-entry journal entries: a line carries a debit or a credit, an
 * entry is a dated list of lines that must balance before it is posted.
 */
module AccountingEntities {
  import opened Wrappers
  import opened Dates
  import opened Text

  datatype EntryStatus = DRAFT | POSTED

  /** A journal line (`línia d'assentament`): an account code with a debit and a credit. */
  datatype JournalLine = JournalLine(accountCode: string, debit: real, credit: real, description: string)

  /** `amount`: the debit when it is positive, the credit otherwise. */
  function Amount(l: JournalLine): real
  {
    if l.debit > 0.0 then l.debit else l.credit
  }

  /** The four checks of `JournalLine.validate`. */
  predicate LineValid(l: JournalLine)
  {
    && l.accountCode != []
    && l.debit >= 0.0 && l.credit >= 0.0
    && !(l.debit > 0.0 && l.credit > 0.0)
    && !(l.debit == 0.0 && l.credit == 0.0)
  }

  /** `JournalLine.validate`: the first failing check's message. */
  function ValidateLine(l: JournalLine): (r: Result<(), string>)
    ensures r.Ok? <==> LineValid(l)
    ensures l.accountCode == [] ==> r == Err("El codi del compte és obligatori")
    ensures l.accountCode != [] && (l.debit < 0.0 || l.credit < 0.0) ==> r == Err("El deure i haver no poden ser negatius")
  {
    if l.accountCode == [] then Err("El codi del compte és obligatori")
    else if l.debit < 0.0 || l.credit < 0.0 then Err("El deure i haver no poden ser negatius")
    else if l.debit > 0.0 && l.credit > 0.0 then Err("Una línia no pot tenir deure i haver alhora")
    else if l.debit == 0.0 && l.credit == 0.0 then Err("Una línia ha de tenir deure o haver")
    else Ok(())
  }

  /**
   * A line is valid exactly when it names an account and has one strictly
   * positive side with the other side zero; `amount` is then that side.
   */
  lemma LineValidOneSide(l: JournalLine)
    ensures LineValid(l) <==>
      l.accountCode != [] && ((l.debit > 0.0 && l.credit == 0.0) || (l.credit > 0.0 && l.debit == 0.0))
    ensures LineValid(l) ==> Amount(l) > 0.0 && Amount(l) == l.debit + l.credit
  {
  }

  /** `total_debit`: the sum of the debits; 0 for no lines. */
  function TotalDebit(lines: seq<JournalLine>): real
  {
    if lines == [] then 0.0 else TotalDebit(lines[..|lines| - 1]) + lines[|lines| - 1].debit
  }

  /** `total_credit`: the sum of the credits; 0 for no lines. */
  function TotalCredit(lines: seq<JournalLine>): real
  {
    if lines == [] then 0.0 else TotalCredit(lines[..|lines| - 1]) + lines[|lines| - 1].credit
  }

  /** `is_balanced`. */
  predicate IsBalanced(lines: seq<JournalLine>)
  {
    TotalDebit(lines) == TotalCredit(lines)
  }

  /** Both totals are additive over concatenation, so the order of the lines does not matter to them. */
  lemma {:induction false} TotalsAppend(a: seq<JournalLine>, b: seq<JournalLine>)
    ensures TotalDebit(a + b) == TotalDebit(a) + TotalDebit(b)
    ensures TotalCredit(a + b) == TotalCredit(a) + TotalCredit(b)
  {
    if b != [] {
      var n := |b| - 1;
      assert (a + b)[..|a + b| - 1] == a + b[..n];
      TotalsAppend(a, b[..n]);
    } else {
      assert a + b == a;
    }
  }

  function SumAmounts(lines: seq<JournalLine>): real
  {
    if lines == [] then 0.0 else SumAmounts(lines[..|lines| - 1]) + Amount(lines[|lines| - 1])
  }

  predicate AllLinesValid(lines: seq<JournalLine>)
  {
    forall i :: 0 <= i < |lines| ==> LineValid(lines[i])
  }

  /** On valid lines each amount is the one non-zero side, so the amounts add up to both totals together. */
  lemma {:induction false} SumAmountsOfValid(lines: seq<JournalLine>)
    requires AllLinesValid(lines)
    ensures SumAmounts(lines) == TotalDebit(lines) + TotalCredit(lines)
    ensures |lines| > 0 ==> SumAmounts(lines) > 0.0
  {
    if lines != [] {
      var n := |lines| - 1;
      assert AllLinesValid(lines[..n]) by {
        forall i | 0 <= i < n ensures LineValid(lines[..n][i]) {
          assert lines[..n][i] == lines[i];
        }
      }
      SumAmountsOfValid(lines[..n]);
      LineValidOneSide(lines[n]);
    }
  }

  /** Position of the first invalid line, `|lines|` when all are valid. */
  function FirstInvalid(lines: seq<JournalLine>): (k: nat)
    ensures k <= |lines|
    ensures k < |lines| ==> !LineValid(lines[k])
    ensures forall j :: 0 <= j < k ==> LineValid(lines[j])
  {
    if lines == [] then 0 else if !LineValid(lines[0]) then 0 else 1 + FirstInvalid(lines[1..])
  }

  /** A journal entry (`assentament`) as it is stored. */
  datatype EntryRecord = EntryRecord(
    id: string,
    entryNumber: int,
    entryDate: Date,
    description: string,
    lines: seq<JournalLine>,
    status: EntryStatus)

  /** What `JournalEntry.validate` accepts. */
  predicate EntryValid(e: EntryRecord)
  {
    && !Blank(e.description)
    && |e.lines| >= 2
    && AllLinesValid(e.lines)
    && IsBalanced(e.lines)
  }

  /** `JournalEntry.validate`: description, at least two lines, every line, then the double-entry check. */
  function ValidateEntry(e: EntryRecord): (r: Result<(), string>)
    ensures r.Ok? <==> EntryValid(e)
    ensures Blank(e.description) ==> r == Err("La descripció és obligatòria")
    ensures !Blank(e.description) && |e.lines| < 2 ==> r == Err("Un assentament ha de tenir almenys 2 línies")
    ensures !Blank(e.description) && |e.lines| >= 2 && AllLinesValid(e.lines) && !IsBalanced(e.lines) ==>
      r == Err("L'assentament no està quadrat")
  {
    if Blank(e.description) then Err("La descripció és obligatòria")
    else if |e.lines| < 2 then Err("Un assentament ha de tenir almenys 2 línies")
    else
      var k := FirstInvalid(e.lines);
      if k < |e.lines| then ValidateLine(e.lines[k])
      else if !IsBalanced(e.lines) then Err("L'assentament no està quadrat")
      else Ok(())
  }

  /** An entry that validates moves a strictly positive, equal amount on each side. */
  lemma ValidEntryMovesMoney(e: EntryRecord)
    requires EntryValid(e)
    ensures TotalDebit(e.lines) == TotalCredit(e.lines) > 0.0
  {
    SumAmountsOfValid(e.lines);
  }

  /** Validation does not look at the status: `post` re-posts a posted entry and leaves it POSTED. */
  lemma ValidationIgnoresStatus(e: EntryRecord, s: EntryStatus)
    ensures ValidateEntry(e.(status := s)) == ValidateEntry(e)
  {
  }

  /** A journal entry object; `post` changes its status. */
  class JournalEntry {
    var id: string
    var entryNumber: int
    var entryDate: Date
    var description: string
    var lines: seq<JournalLine>
    var status: EntryStatus

    function Record(): EntryRecord
      reads this
    {
      EntryRecord(id, entryNumber, entryDate, description, lines, status)
    }

    constructor (r: EntryRecord)
      ensures Record() == r
    {
      id, entryNumber, entryDate, description, lines, status := r.id, r.entryNumber, r.entryDate, r.description, r.lines, r.status;
    }

    /** `post`: validate, then POSTED; an entry that fails validation keeps its status. */
    method Post() returns (r: Result<(), string>)
      modifies this
      ensures r == ValidateEntry(old(Record()))
      ensures Record() == if r.Ok? then old(Record()).(status := POSTED) else old(Record())
    {
      r := ValidateEntry(Record());
      if r.Ok? {
        status := POSTED;
      }
    }

    /** `can_edit`. */
    predicate CanEdit()
      reads this
    {
      status == DRAFT
    }
  }
}
