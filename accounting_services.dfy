/**
 * The accounting service: the chart of accounts and the journal are
 * sequences in repository order; balances are folds over the posted entries.
 */
module AccountingServices {
  import opened Wrappers
  import opened Dates
  import opened AccountingEntities

  datatype AccountType = ASSET | LIABILITY | EQUITY | INCOME | EXPENSE

  /**
   * An account as the accounting service uses it. `debitSide` stands for
   * `is_debit_account`, which the account entity does not define: it is an
   * input of the model.
   */
  datatype LedgerAccount = LedgerAccount(
    code: string,
    name: string,
    accountType: AccountType,
    group: int,
    parentCode: Option<string>,
    debitSide: bool)

  /** `find_by_code`: the first account with that code. */
  function FindAccount(accounts: seq<LedgerAccount>, code: string): (r: Option<LedgerAccount>)
    ensures r.Some? <==> exists i :: 0 <= i < |accounts| && accounts[i].code == code
    ensures r.Some? ==> r.value.code == code && r.value in accounts
  {
    if accounts == [] then None
    else if accounts[0].code == code then Some(accounts[0])
    else FindAccount(accounts[1..], code)
  }

  /** `find_by_id`: the position of the first entry with that id, `|journal|` when there is none. */
  function FindEntry(journal: seq<EntryRecord>, id: string): (k: nat)
    ensures k <= |journal|
    ensures k < |journal| ==> journal[k].id == id
    ensures forall j :: 0 <= j < k ==> journal[j].id != id
  {
    if journal == [] then 0 else if journal[0].id == id then 0 else 1 + FindEntry(journal[1..], id)
  }

  // ---------------------------------------------------------------- balances

  /** An entry counts towards a balance when it is posted and not dated after `endDate`. */
  predicate Counts(e: EntryRecord, endDate: Option<Date>)
  {
    e.status == POSTED && (endDate.None? || !Before(endDate.value, e.entryDate))
  }

  /** The debits of the lines on account `code`. */
  function CodeDebit(lines: seq<JournalLine>, code: string): real
  {
    if lines == [] then 0.0
    else CodeDebit(lines[..|lines| - 1], code) + (if lines[|lines| - 1].accountCode == code then lines[|lines| - 1].debit else 0.0)
  }

  /** The credits of the lines on account `code`. */
  function CodeCredit(lines: seq<JournalLine>, code: string): real
  {
    if lines == [] then 0.0
    else CodeCredit(lines[..|lines| - 1], code) + (if lines[|lines| - 1].accountCode == code then lines[|lines| - 1].credit else 0.0)
  }

  /** The debits on `code` over the entries that count. */
  function LedgerDebit(journal: seq<EntryRecord>, code: string, endDate: Option<Date>): real
  {
    if journal == [] then 0.0
    else
      var e := journal[|journal| - 1];
      LedgerDebit(journal[..|journal| - 1], code, endDate) + (if Counts(e, endDate) then CodeDebit(e.lines, code) else 0.0)
  }

  /** The credits on `code` over the entries that count. */
  function LedgerCredit(journal: seq<EntryRecord>, code: string, endDate: Option<Date>): real
  {
    if journal == [] then 0.0
    else
      var e := journal[|journal| - 1];
      LedgerCredit(journal[..|journal| - 1], code, endDate) + (if Counts(e, endDate) then CodeCredit(e.lines, code) else 0.0)
  }

  /** Debit minus credit on a debit-side account, credit minus debit otherwise. */
  function SideBalance(debitSide: bool, debit: real, credit: real): real
  {
    if debitSide then debit - credit else credit - debit
  }

  function Balance(a: LedgerAccount, journal: seq<EntryRecord>, endDate: Option<Date>): real
  {
    SideBalance(a.debitSide, LedgerDebit(journal, a.code, endDate), LedgerCredit(journal, a.code, endDate))
  }

  /** The balance `get_account_balance` reports for a code; 0 for a code with no account. */
  function CodeBalance(accounts: seq<LedgerAccount>, journal: seq<EntryRecord>, code: string, endDate: Option<Date>): real
  {
    match FindAccount(accounts, code)
    case None => 0.0
    case Some(a) => Balance(a, journal, endDate)
  }

  /** A new draft entry changes no balance. */
  lemma DraftChangesNoBalance(journal: seq<EntryRecord>, e: EntryRecord, code: string, endDate: Option<Date>)
    requires e.status == DRAFT
    ensures LedgerDebit(journal + [e], code, endDate) == LedgerDebit(journal, code, endDate)
    ensures LedgerCredit(journal + [e], code, endDate) == LedgerCredit(journal, code, endDate)
  {
    assert (journal + [e])[..|journal|] == journal;
  }

  /** Posting a draft adds its own lines on `code` to the totals, when its date is in range. */
  lemma {:induction false} PostingAddsEntry(journal: seq<EntryRecord>, k: nat, code: string, endDate: Option<Date>)
    requires k < |journal| && journal[k].status == DRAFT
    ensures var e := journal[k].(status := POSTED);
      var inRange := Counts(e, endDate);
      && LedgerDebit(journal[k := e], code, endDate) ==
           LedgerDebit(journal, code, endDate) + (if inRange then CodeDebit(e.lines, code) else 0.0)
      && LedgerCredit(journal[k := e], code, endDate) ==
           LedgerCredit(journal, code, endDate) + (if inRange then CodeCredit(e.lines, code) else 0.0)
  {
    var e := journal[k].(status := POSTED);
    var n := |journal| - 1;
    if k < n {
      assert journal[k := e][..n] == journal[..n][k := e];
      PostingAddsEntry(journal[..n], k, code, endDate);
    } else {
      assert journal[k := e][..n] == journal[..n];
    }
  }

  /** The posted debits and the posted credits of the whole ledger, over every account. */
  function PostedDebit(journal: seq<EntryRecord>, endDate: Option<Date>): real
  {
    if journal == [] then 0.0
    else
      var e := journal[|journal| - 1];
      PostedDebit(journal[..|journal| - 1], endDate) + (if Counts(e, endDate) then TotalDebit(e.lines) else 0.0)
  }

  function PostedCredit(journal: seq<EntryRecord>, endDate: Option<Date>): real
  {
    if journal == [] then 0.0
    else
      var e := journal[|journal| - 1];
      PostedCredit(journal[..|journal| - 1], endDate) + (if Counts(e, endDate) then TotalCredit(e.lines) else 0.0)
  }

  predicate AllEntriesValid(journal: seq<EntryRecord>)
  {
    forall i :: 0 <= i < |journal| ==> EntryValid(journal[i])
  }

  /** Double entry: when every stored entry balances, the ledger's posted debits equal its posted credits. */
  lemma {:induction false} LedgerBalanced(journal: seq<EntryRecord>, endDate: Option<Date>)
    requires forall i :: 0 <= i < |journal| ==> IsBalanced(journal[i].lines)
    ensures PostedDebit(journal, endDate) == PostedCredit(journal, endDate)
  {
    if journal != [] {
      var n := |journal| - 1;
      assert forall i :: 0 <= i < n ==> journal[..n][i] == journal[i];
      LedgerBalanced(journal[..n], endDate);
      assert IsBalanced(journal[n].lines);
    }
  }

  /** A journal of valid entries is balanced as a whole. */
  lemma ValidLedgerBalanced(journal: seq<EntryRecord>, endDate: Option<Date>)
    requires AllEntriesValid(journal)
    ensures PostedDebit(journal, endDate) == PostedCredit(journal, endDate)
  {
    LedgerBalanced(journal, endDate);
  }

  // ---------------------------------------------------------------- new entries

  predicate AccountKnown(accounts: seq<LedgerAccount>, code: string)
  {
    exists i :: 0 <= i < |accounts| && accounts[i].code == code
  }

  /** Position of the first line whose account does not exist, `|lines|` when all exist. */
  function FirstUnknown(accounts: seq<LedgerAccount>, lines: seq<JournalLine>): (k: nat)
    ensures k <= |lines|
    ensures k < |lines| ==> !AccountKnown(accounts, lines[k].accountCode)
    ensures forall j :: 0 <= j < k ==> AccountKnown(accounts, lines[j].accountCode)
  {
    if lines == [] then 0
    else if !AccountKnown(accounts, lines[0].accountCode) then 0
    else 1 + FirstUnknown(accounts, lines[1..])
  }

  /** What `create_journal_entry` returns: unknown accounts first, then entry validation. */
  function NewEntry(accounts: seq<LedgerAccount>, id: string, entryNumber: int, entryDate: Date,
                    description: string, lines: seq<JournalLine>): (r: Result<EntryRecord, string>)
    ensures r.Ok? <==>
      (forall j :: 0 <= j < |lines| ==> AccountKnown(accounts, lines[j].accountCode))
      && EntryValid(EntryRecord(id, entryNumber, entryDate, description, lines, DRAFT))
    ensures r.Ok? ==> r.value == EntryRecord(id, entryNumber, entryDate, description, lines, DRAFT)
    ensures var k := FirstUnknown(accounts, lines);
      k < |lines| ==> r == Err("El compte " + lines[k].accountCode + " no existeix")
  {
    var k := FirstUnknown(accounts, lines);
    if k < |lines| then Err("El compte " + lines[k].accountCode + " no existeix")
    else
      var e := EntryRecord(id, entryNumber, entryDate, description, lines, DRAFT);
      match ValidateEntry(e)
      case Err(msg) => Err(msg)
      case Ok(_) => Ok(e)
  }

  /**
   * `get_next_entry_number`: one more than the largest stored entry number,
   * 1 for an empty journal.
   */
  function NextEntryNumber(journal: seq<EntryRecord>): (n: int)
    ensures journal == [] ==> n == 1
    ensures journal != [] ==> exists i :: 0 <= i < |journal| && journal[i].entryNumber == n - 1
    ensures forall i :: 0 <= i < |journal| ==> journal[i].entryNumber < n
  {
    if journal == [] then 1
    else
      var m := NextEntryNumber(journal[..|journal| - 1]);
      var last := journal[|journal| - 1].entryNumber;
      if journal[..|journal| - 1] == [] || last + 1 > m then last + 1 else m
  }

  /** No two stored entries share a number. */
  predicate NumbersDistinct(journal: seq<EntryRecord>)
  {
    forall i, j :: 0 <= i < j < |journal| ==> journal[i].entryNumber != journal[j].entryNumber
  }

  /**
   * Appending an entry numbered by `NextEntryNumber` keeps the numbers
   * distinct, and the next number after it is one more.
   */
  lemma AppendNextNumber(journal: seq<EntryRecord>, e: EntryRecord)
    requires NumbersDistinct(journal)
    requires e.entryNumber == NextEntryNumber(journal)
    ensures NumbersDistinct(journal + [e])
    ensures NextEntryNumber(journal + [e]) == e.entryNumber + 1
  {
    var j := journal + [e];
    assert j[..|j| - 1] == journal;
    forall i | 0 <= i < |journal|
      ensures j[i].entryNumber != e.entryNumber
    {
      assert j[i] == journal[i];
    }
  }

  lemma AppendKeepsDistinct(journal: seq<EntryRecord>, e: EntryRecord)
    requires e.entryNumber == NextEntryNumber(journal)
    ensures NumbersDistinct(journal) ==> NumbersDistinct(journal + [e])
  {
    if NumbersDistinct(journal) {
      AppendNextNumber(journal, e);
    }
  }

  /** Replacing one entry by a copy with the same number keeps the numbers distinct. */
  lemma SameNumberKeepsDistinct(journal: seq<EntryRecord>, k: nat, e: EntryRecord)
    requires NumbersDistinct(journal)
    requires k < |journal| && e.entryNumber == journal[k].entryNumber
    ensures NumbersDistinct(journal[k := e])
  {
    var j := journal[k := e];
    assert forall i :: 0 <= i < |j| ==> j[i].entryNumber == journal[i].entryNumber;
  }

  /** One row of the trial balance. */
  datatype TrialRow = TrialRow(name: string, accountType: AccountType, balance: real)

  /** The trial balance dictionary after the loop has seen `seen`. */
  function TrialFold(seen: seq<LedgerAccount>, accounts: seq<LedgerAccount>, journal: seq<EntryRecord>,
                     endDate: Option<Date>): map<string, TrialRow>
  {
    if seen == [] then map[]
    else
      var m := TrialFold(seen[..|seen| - 1], accounts, journal, endDate);
      var a := seen[|seen| - 1];
      var b := CodeBalance(accounts, journal, a.code, endDate);
      if b != 0.0 then m[a.code := TrialRow(a.name, a.accountType, b)] else m
  }

  /** The trial balance holds exactly the codes seen whose balance is non-zero, each with that balance. */
  lemma {:induction false} TrialFoldKeys(seen: seq<LedgerAccount>, accounts: seq<LedgerAccount>,
                                         journal: seq<EntryRecord>, endDate: Option<Date>)
    ensures var m := TrialFold(seen, accounts, journal, endDate);
      forall c :: c in m <==> AccountKnown(seen, c) && CodeBalance(accounts, journal, c, endDate) != 0.0
    ensures var m := TrialFold(seen, accounts, journal, endDate);
      forall c :: c in m ==> m[c].balance == CodeBalance(accounts, journal, c, endDate)
  {
    if seen != [] {
      var n := |seen| - 1;
      TrialFoldKeys(seen[..n], accounts, journal, endDate);
      KnownLast(seen);
      var m0 := TrialFold(seen[..n], accounts, journal, endDate);
      var m := TrialFold(seen, accounts, journal, endDate);
      var a := seen[n];
      var b := CodeBalance(accounts, journal, a.code, endDate);
      assert m == if b != 0.0 then m0[a.code := TrialRow(a.name, a.accountType, b)] else m0;
      forall c
        ensures c in m <==> AccountKnown(seen, c) && CodeBalance(accounts, journal, c, endDate) != 0.0
        ensures c in m ==> m[c].balance == CodeBalance(accounts, journal, c, endDate)
      {
        if c != a.code {
          assert c in m <==> c in m0;
        }
      }
    }
  }

  /** A code is among the accounts seen exactly when it is among the earlier ones or is the last one's. */
  lemma KnownLast(seen: seq<LedgerAccount>)
    requires seen != []
    ensures forall c :: AccountKnown(seen, c) <==> AccountKnown(seen[..|seen| - 1], c) || seen[|seen| - 1].code == c
  {
    var n := |seen| - 1;
    forall c ensures AccountKnown(seen, c) <==> AccountKnown(seen[..n], c) || seen[n].code == c {
      if AccountKnown(seen, c) && seen[n].code != c {
        var i :| 0 <= i < |seen| && seen[i].code == c;
        assert seen[..n][i] == seen[i];
      }
      if AccountKnown(seen[..n], c) {
        var i :| 0 <= i < n && seen[..n][i].code == c;
        assert seen[i] == seen[..n][i];
      }
    }
  }

  // ---------------------------------------------------------------- the service

  class AccountingService {
    var accounts: seq<LedgerAccount>
    var journal: seq<EntryRecord>

    constructor (accounts: seq<LedgerAccount>, journal: seq<EntryRecord>)
      ensures this.accounts == accounts && this.journal == journal
    {
      this.accounts := accounts;
      this.journal := journal;
    }

    /** Every stored entry passed validation: what `create_journal_entry` and `post_journal_entry` keep. */
    predicate JournalValid()
      reads this
    {
      AllEntriesValid(journal)
    }

    /** `create_account`: an existing code raises; otherwise the account is added. */
    method CreateAccount(code: string, name: string, accountType: AccountType, group: int,
                         parentCode: Option<string>, debitSide: bool) returns (r: Result<LedgerAccount, string>)
      modifies this`accounts
      ensures r.Err? <==> AccountKnown(old(accounts), code)
      ensures r.Err? ==> r.error == "Ja existeix un compte amb el codi " + code && accounts == old(accounts)
      ensures r.Ok? ==> r.value == LedgerAccount(code, name, accountType, group, parentCode, debitSide)
      ensures r.Ok? ==> accounts == old(accounts) + [r.value]
    {
      if FindAccount(accounts, code).Some? {
        return Err("Ja existeix un compte amb el codi " + code);
      }
      var a := LedgerAccount(code, name, accountType, group, parentCode, debitSide);
      accounts := accounts + [a];
      r := Ok(a);
    }

    /**
     * `create_journal_entry`: the entry takes the next number of the journal;
     * every line's account must exist, then the entry must validate; only
     * then is the draft stored. The id is an input.
     */
    method CreateJournalEntry(id: string, entryDate: Date, description: string,
                              lines: seq<JournalLine>) returns (r: Result<EntryRecord, string>)
      modifies this`journal
      ensures r == NewEntry(accounts, id, NextEntryNumber(old(journal)), entryDate, description, lines)
      ensures journal == if r.Ok? then old(journal) + [r.value] else old(journal)
      ensures old(JournalValid()) ==> JournalValid()
      ensures old(NumbersDistinct(journal)) ==> NumbersDistinct(journal)
    {
      var entryNumber := NextEntryNumber(journal);
      var built: seq<JournalLine> := [];
      for i := 0 to |lines|
        invariant built == lines[..i]
        invariant forall j :: 0 <= j < i ==> AccountKnown(accounts, lines[j].accountCode)
      {
        var code := lines[i].accountCode;
        if FindAccount(accounts, code).None? {
          assert FirstUnknown(accounts, lines) == i;
          return Err("El compte " + code + " no existeix");
        }
        built := built + [JournalLine(code, lines[i].debit, lines[i].credit, lines[i].description)];
      }
      assert built == lines;
      var e := EntryRecord(id, entryNumber, entryDate, description, built, DRAFT);
      var v := ValidateEntry(e);
      if v.Err? {
        return Err(v.error);
      }
      AppendKeepsDistinct(journal, e);
      journal := journal + [e];
      r := Ok(e);
    }

    /** `post_journal_entry`: a missing or already posted entry raises; otherwise `post` decides. */
    method PostJournalEntry(id: string) returns (r: Result<EntryRecord, string>)
      modifies this`journal
      ensures var k := FindEntry(old(journal), id);
        && (k == |old(journal)| ==> r == Err("No s'ha trobat l'assentament amb ID " + id))
        && (k < |old(journal)| && old(journal)[k].status == POSTED ==> r == Err("L'assentament ja està comptabilitzat"))
        && (r.Ok? <==> k < |old(journal)| && old(journal)[k].status == DRAFT && EntryValid(old(journal)[k]))
        && (r.Ok? ==> r.value == old(journal)[k].(status := POSTED) && journal == old(journal)[k := r.value])
      ensures r.Err? ==> journal == old(journal)
      ensures old(JournalValid()) ==> JournalValid()
      ensures old(NumbersDistinct(journal)) ==> NumbersDistinct(journal)
    {
      var k := FindEntry(journal, id);
      if k == |journal| {
        return Err("No s'ha trobat l'assentament amb ID " + id);
      }
      var e := new JournalEntry(journal[k]);
      if e.status == POSTED {
        return Err("L'assentament ja està comptabilitzat");
      }
      var p := e.Post();
      if p.Err? {
        return Err(p.error);
      }
      var posted := e.Record();
      if NumbersDistinct(journal) {
        SameNumberKeepsDistinct(journal, k, posted);
      }
      journal := journal[k := posted];
      r := Ok(posted);
    }

    /** `get_account_balance`: the running totals over the posted entries up to `endDate`. */
    method GetAccountBalance(code: string, endDate: Option<Date>) returns (r: Result<real, string>)
      ensures !AccountKnown(accounts, code) ==> r == Err("El compte " + code + " no existeix")
      ensures AccountKnown(accounts, code) ==> r == Ok(CodeBalance(accounts, journal, code, endDate))
    {
      var account := FindAccount(accounts, code);
      if account.None? {
        return Err("El compte " + code + " no existeix");
      }
      var totalDebit, totalCredit := 0.0, 0.0;
      for i := 0 to |journal|
        invariant totalDebit == LedgerDebit(journal[..i], code, endDate)
        invariant totalCredit == LedgerCredit(journal[..i], code, endDate)
      {
        assert journal[..i + 1][..i] == journal[..i];
        var entry := journal[i];
        if Counts(entry, endDate) {
          var d, c := 0.0, 0.0;
          for j := 0 to |entry.lines|
            invariant d == CodeDebit(entry.lines[..j], code)
            invariant c == CodeCredit(entry.lines[..j], code)
          {
            assert entry.lines[..j + 1][..j] == entry.lines[..j];
            var line := entry.lines[j];
            if line.accountCode == code {
              d, c := d + line.debit, c + line.credit;
            }
          }
          assert entry.lines[..|entry.lines|] == entry.lines;
          totalDebit, totalCredit := totalDebit + d, totalCredit + c;
        }
      }
      assert journal[..|journal|] == journal;
      r := Ok(SideBalance(account.value.debitSide, totalDebit, totalCredit));
    }

    /** `get_trial_balance`: exactly the accounts whose balance is non-zero, keyed by code. */
    method GetTrialBalance(endDate: Option<Date>) returns (tb: map<string, TrialRow>)
      ensures forall c :: c in tb <==> AccountKnown(accounts, c) && CodeBalance(accounts, journal, c, endDate) != 0.0
      ensures forall c :: c in tb ==> tb[c].balance == CodeBalance(accounts, journal, c, endDate)
      ensures tb == TrialFold(accounts, accounts, journal, endDate)
    {
      tb := map[];
      for i := 0 to |accounts|
        invariant tb == TrialFold(accounts[..i], accounts, journal, endDate)
      {
        assert accounts[..i + 1][..i] == accounts[..i];
        var a := accounts[i];
        assert AccountKnown(accounts, a.code);
        var b := GetAccountBalance(a.code, endDate);
        if b.value != 0.0 {
          tb := tb[a.code := TrialRow(a.name, a.accountType, b.value)];
        }
      }
      assert accounts[..|accounts|] == accounts;
      TrialFoldKeys(accounts, accounts, journal, endDate);
    }
  }
}
