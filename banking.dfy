/**
 * Bank statements and the manual reconciliation of one statement line with
 * a journal entry. The repository is a map from statement id to the stored
 * statement; time stamps are left out of the statement.
 */
module Banking {
  import opened Wrappers
  import opened Dates

  datatype StatementStatus = Pending | Partial | Reconciled

  /** A statement line; its status is free text, "PENDING" or "MATCHED" in practice. */
  datatype BankStatementLine = BankStatementLine(
    id: Option<string>,
    statementId: string,
    date: Date,
    amount: real,
    concept: string,
    reconciledEntryId: Option<string>,
    status: string)

  datatype BankStatement = BankStatement(
    id: Option<string>,
    accountId: string,
    filename: string,
    status: StatementStatus,
    lines: seq<BankStatementLine>)

  /** The loop body on one line: a line with the requested id is matched to the entry. */
  function MatchLine(l: BankStatementLine, lineId: string, entryId: string): (r: BankStatementLine)
    ensures l.id == Some(lineId) ==> r.status == "MATCHED" && r.reconciledEntryId == Some(entryId)
    ensures l.id == Some(lineId) ==> r == l.(status := r.status, reconciledEntryId := r.reconciledEntryId)
    ensures l.id != Some(lineId) ==> r == l
  {
    if l.id == Some(lineId) then l.(reconciledEntryId := Some(entryId), status := "MATCHED") else l
  }

  /** Every line after the loop of `reconcile_line`. */
  function MatchLines(lines: seq<BankStatementLine>, lineId: string, entryId: string): (r: seq<BankStatementLine>)
    ensures |r| == |lines|
    ensures forall i :: 0 <= i < |lines| ==> r[i] == MatchLine(lines[i], lineId, entryId)
  {
    if lines == [] then []
    else MatchLines(lines[..|lines| - 1], lineId, entryId) + [MatchLine(lines[|lines| - 1], lineId, entryId)]
  }

  /** Some line carries the id. */
  predicate HasLine(lines: seq<BankStatementLine>, lineId: string)
  {
    exists i :: 0 <= i < |lines| && lines[i].id == Some(lineId)
  }

  /** Every line is matched. */
  predicate AllMatched(lines: seq<BankStatementLine>)
  {
    forall i :: 0 <= i < |lines| ==> lines[i].status == "MATCHED"
  }

  /** The statement status that a successful reconciliation sets. */
  function StatusAfter(lines: seq<BankStatementLine>): (s: StatementStatus)
    ensures s == Reconciled <==> AllMatched(lines)
    ensures s != Reconciled ==> s == Partial
  {
    if AllMatched(lines) then Reconciled else Partial
  }

  /** Matching the same line again with another entry keeps only the later entry. */
  lemma Rematch(lines: seq<BankStatementLine>, lineId: string, e1: string, e2: string)
    ensures MatchLines(MatchLines(lines, lineId, e1), lineId, e2) == MatchLines(lines, lineId, e2)
  {
    var a := MatchLines(MatchLines(lines, lineId, e1), lineId, e2);
    var b := MatchLines(lines, lineId, e2);
    forall i | 0 <= i < |lines| ensures a[i] == b[i] {
      assert MatchLines(lines, lineId, e1)[i].id == lines[i].id;
    }
  }

  /**
   * After matching, a statement is fully reconciled exactly when every line
   * other than the requested ones was already matched.
   */
  lemma ReconciledIffOthersMatched(lines: seq<BankStatementLine>, lineId: string, entryId: string)
    ensures StatusAfter(MatchLines(lines, lineId, entryId)) == Reconciled <==>
      forall j :: 0 <= j < |lines| && lines[j].id != Some(lineId) ==> lines[j].status == "MATCHED"
  {
    var r := MatchLines(lines, lineId, entryId);
    if forall j :: 0 <= j < |lines| && lines[j].id != Some(lineId) ==> lines[j].status == "MATCHED" {
      forall j | 0 <= j < |r| ensures r[j].status == "MATCHED" {
        assert r[j] == MatchLine(lines[j], lineId, entryId);
      }
    } else {
      var j :| 0 <= j < |lines| && lines[j].id != Some(lineId) && lines[j].status != "MATCHED";
      assert r[j] == lines[j];
    }
  }

  /** Looking one line further finds the id when it was found before or is on that line. */
  lemma HasLineStep(lines: seq<BankStatementLine>, i: nat, lineId: string)
    requires i < |lines|
    ensures HasLine(lines[..i + 1], lineId) <==> HasLine(lines[..i], lineId) || lines[i].id == Some(lineId)
  {
    if HasLine(lines[..i], lineId) {
      var k :| 0 <= k < i && lines[..i][k].id == Some(lineId);
      assert lines[..i + 1][k].id == Some(lineId);
    }
    if HasLine(lines[..i + 1], lineId) && lines[i].id != Some(lineId) {
      var k :| 0 <= k < i + 1 && lines[..i + 1][k].id == Some(lineId);
      assert lines[..i][k].id == Some(lineId);
    }
    assert lines[..i + 1][i] == lines[i];
  }

  /** Matching one line further appends that line, matched. */
  lemma MatchLinesStep(lines: seq<BankStatementLine>, i: nat, lineId: string, entryId: string)
    requires i < |lines|
    ensures MatchLines(lines[..i + 1], lineId, entryId) ==
      MatchLines(lines[..i], lineId, entryId) + [MatchLine(lines[i], lineId, entryId)]
  {
    assert lines[..i + 1][..i] == lines[..i];
    assert lines[..i + 1][i] == lines[i];
  }

  /** All lines with one more are matched when all were and the new one is. */
  lemma AllMatchedStep(out: seq<BankStatementLine>, line: BankStatementLine)
    ensures AllMatched(out + [line]) <==> AllMatched(out) && line.status == "MATCHED"
  {
    assert (out + [line])[|out|] == line;
    assert forall k :: 0 <= k < |out| ==> (out + [line])[k] == out[k];
  }

  /** The loop of `reconcile_line` over the lines, with its two flags. */
  method MatchAll(lines: seq<BankStatementLine>, lineId: string, entryId: string)
    returns (out: seq<BankStatementLine>, found: bool, allReconciled: bool)
    ensures out == MatchLines(lines, lineId, entryId)
    ensures found <==> HasLine(lines, lineId)
    ensures allReconciled <==> AllMatched(out)
  {
    out, found, allReconciled := [], false, true;
    var i := 0;
    while i < |lines|
      invariant 0 <= i <= |lines|
      invariant out == MatchLines(lines[..i], lineId, entryId)
      invariant found <==> HasLine(lines[..i], lineId)
      invariant allReconciled <==> AllMatched(out)
    {
      var line := lines[i];
      if line.id == Some(lineId) {
        line := line.(reconciledEntryId := Some(entryId), status := "MATCHED");
        found := true;
      }
      if line.status != "MATCHED" {
        allReconciled := false;
      }
      MatchLinesStep(lines, i, lineId, entryId);
      HasLineStep(lines, i, lineId);
      AllMatchedStep(out, line);
      out := out + [line];
      i := i + 1;
    }
    assert lines[..i] == lines;
  }

  class BankingService {
    var statements: map<string, BankStatement>

    constructor (statements: map<string, BankStatement>)
      ensures this.statements == statements
    {
      this.statements := statements;
    }

    /**
     * `reconcile_line`: an unknown statement, or a statement without a line
     * of that id, gives false and nothing is saved. Otherwise every line with
     * that id is matched to the entry, the others stay as they were, the
     * statement becomes RECONCILED when every line is matched and PARTIAL
     * otherwise, and it is saved.
     */
    method ReconcileLine(statementId: string, lineId: string, entryId: string) returns (ok: bool)
      modifies this
      ensures statementId !in old(statements) ==> !ok && statements == old(statements)
      ensures statementId in old(statements) && !HasLine(old(statements)[statementId].lines, lineId) ==>
        !ok && statements == old(statements)
      ensures statementId in old(statements) && HasLine(old(statements)[statementId].lines, lineId) ==>
        var s := old(statements)[statementId];
        var lines := MatchLines(s.lines, lineId, entryId);
        ok && statements == old(statements)[statementId := s.(lines := lines, status := StatusAfter(lines))]
    {
      if statementId !in statements {
        return false;
      }
      var s := statements[statementId];
      var out, found, allReconciled := MatchAll(s.lines, lineId, entryId);
      if found {
        statements := statements[statementId := s.(lines := out, status := if allReconciled then Reconciled else Partial)];
        return true;
      }
      return false;
    }
  }
}
