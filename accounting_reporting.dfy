/**
 * The official reports of the Spanish chart of accounts: the balance sheet
 * (balanç de situació), which places each account with a non-zero balance
 * in a group by its type and code prefix, and the profit and loss account
 * (compte de pèrdues i guanys), which groups the income and expense
 * balances of a period and derives the operating, financial, pre-tax and
 * final results. A dictionary of groups is a list of named groups in
 * insertion order; Decimal amounts are reals.
 */
module AccountingReporting {
  import opened Wrappers
  import opened Dates
  import opened Text
  import opened AccountingEntities
  import opened AccountingServices

  // ---------------------------------------------------------------- groups

  /** One account line of a group: `{"code", "name", "balance"}` or `{"code", "name", "amount"}`. */
  datatype ReportLine = ReportLine(code: string, name: string, amount: real)

  datatype Group = Group(total: real, lines: seq<ReportLine>)

  /** One entry of a `groups` dictionary. */
  datatype Named = Named(name: string, group: Group)

  function FindGroup(gs: seq<Named>, name: string): (k: nat)
    ensures k <= |gs|
    ensures k < |gs| ==> gs[k].name == name
    ensures forall j :: 0 <= j < k ==> gs[j].name != name
  {
    if gs == [] then 0 else if gs[0].name == name then 0 else 1 + FindGroup(gs[1..], name)
  }

  /** `add_item` / the body of `add_to_category` on one dictionary: create the group if needed, append the line, add to its total. */
  function AddItem(gs: seq<Named>, name: string, l: ReportLine): seq<Named>
  {
    var k := FindGroup(gs, name);
    if k < |gs| then gs[k := Named(name, Group(gs[k].group.total + l.amount, gs[k].group.lines + [l]))]
    else gs + [Named(name, Group(0.0 + l.amount, [l]))]
  }

  function SumAmounts(lines: seq<ReportLine>): real
  {
    if lines == [] then 0.0 else SumAmounts(lines[..|lines| - 1]) + lines[|lines| - 1].amount
  }

  /** The sum of the group totals. */
  function SumTotals(gs: seq<Named>): real
  {
    if gs == [] then 0.0 else SumTotals(gs[..|gs| - 1]) + gs[|gs| - 1].group.total
  }

  /** Every group total is the sum of its lines. */
  predicate GroupsConsistent(gs: seq<Named>)
  {
    forall i :: 0 <= i < |gs| ==> gs[i].group.total == SumAmounts(gs[i].group.lines)
  }

  /** Every line of every group has a non-zero amount. */
  predicate NoZeroLines(gs: seq<Named>)
  {
    forall i, j :: 0 <= i < |gs| && 0 <= j < |gs[i].group.lines| ==> gs[i].group.lines[j].amount != 0.0
  }

  /** The total of the named group, 0 when there is none (`if name in groups`). */
  function GroupTotal(gs: seq<Named>, name: string): real
  {
    var k := FindGroup(gs, name);
    if k < |gs| then gs[k].group.total else 0.0
  }

  /** Replacing one group changes the sum of the totals by the change of that total. */
  lemma {:induction false} SumTotalsUpdate(gs: seq<Named>, k: nat, x: Named)
    requires k < |gs|
    ensures SumTotals(gs[k := x]) == SumTotals(gs) - gs[k].group.total + x.group.total
  {
    var n := |gs| - 1;
    var hs := gs[k := x];
    assert hs[..n] == if k < n then gs[..n][k := x] else gs[..n];
    if k < n {
      SumTotalsUpdate(gs[..n], k, x);
    }
  }

  /** Replacing a group by one of the same name finds every name where it was. */
  lemma {:induction false} FindAfterUpdate(gs: seq<Named>, k: nat, x: Named, target: string)
    requires k < |gs| && x.name == gs[k].name
    ensures FindGroup(gs[k := x], target) == FindGroup(gs, target)
  {
    if k == 0 {
      assert gs[k := x][1..] == gs[1..];
    } else {
      assert gs[k := x][1..] == gs[1..][k - 1 := x];
      if gs[0].name != target {
        FindAfterUpdate(gs[1..], k - 1, x, target);
      }
    }
  }

  /** A group added at the end is found only when no earlier group has its name. */
  lemma {:induction false} FindAfterAppend(gs: seq<Named>, x: Named, target: string)
    ensures FindGroup(gs + [x], target) ==
      if FindGroup(gs, target) < |gs| then FindGroup(gs, target)
      else if x.name == target then |gs| else |gs| + 1
  {
    if gs == [] {
      assert [x][1..] == [];
    } else {
      assert (gs + [x])[1..] == gs[1..] + [x];
      if gs[0].name != target {
        FindAfterAppend(gs[1..], x, target);
      }
    }
  }

  /** Adding a line adds its amount to the sum of the group totals. */
  lemma AddItemSum(gs: seq<Named>, name: string, l: ReportLine)
    ensures SumTotals(AddItem(gs, name, l)) == SumTotals(gs) + l.amount
  {
    var k := FindGroup(gs, name);
    if k < |gs| {
      SumTotalsUpdate(gs, k, Named(name, Group(gs[k].group.total + l.amount, gs[k].group.lines + [l])));
    } else {
      var x := Named(name, Group(0.0 + l.amount, [l]));
      assert (gs + [x])[..|gs|] == gs;
    }
  }

  /** Adding a line changes the total of its own group only. */
  lemma AddItemGroupTotal(gs: seq<Named>, name: string, l: ReportLine, target: string)
    ensures GroupTotal(AddItem(gs, name, l), target) == GroupTotal(gs, target) + (if name == target then l.amount else 0.0)
  {
    var k := FindGroup(gs, name);
    if k < |gs| {
      FindAfterUpdate(gs, k, Named(name, Group(gs[k].group.total + l.amount, gs[k].group.lines + [l])), target);
    } else {
      FindAfterAppend(gs, Named(name, Group(0.0 + l.amount, [l])), target);
    }
  }

  /** Adding a line keeps every group total the sum of its lines. */
  lemma AddItemConsistent(gs: seq<Named>, name: string, l: ReportLine)
    requires GroupsConsistent(gs)
    ensures GroupsConsistent(AddItem(gs, name, l))
  {
    var k := FindGroup(gs, name);
    if k < |gs| {
      assert (gs[k].group.lines + [l])[..|gs[k].group.lines|] == gs[k].group.lines;
    } else {
      assert [l][..0] == [];
    }
  }

  /** Adding a non-zero line keeps every line non-zero. */
  lemma AddItemNoZero(gs: seq<Named>, name: string, l: ReportLine)
    requires NoZeroLines(gs) && l.amount != 0.0
    ensures NoZeroLines(AddItem(gs, name, l))
  {
    var k := FindGroup(gs, name);
    var r := AddItem(gs, name, l);
    forall i, j | 0 <= i < |r| && 0 <= j < |r[i].group.lines| ensures r[i].group.lines[j].amount != 0.0 {
      if k < |gs| && i == k && j == |gs[k].group.lines| {
        assert r[i].group.lines[j] == l;
      } else if k < |gs| && i == k {
        assert r[i].group.lines[j] == gs[k].group.lines[j];
      } else if k == |gs| && i == |gs| {
        assert r[i].group.lines[j] == l;
      } else {
        assert r[i] == gs[i];
      }
    }
  }

  // ---------------------------------------------------------------- balance sheet

  /** The sub-categories: actiu no corrent and corrent; patrimoni net, passiu no corrent and corrent. */
  datatype Sub = NoCorrent | Corrent | PatrimoniNet | PassiuNoCorrent | PassiuCorrent

  predicate IsActiu(s: Sub) { s == NoCorrent || s == Corrent }

  datatype Section = Section(total: real, groups: seq<Named>)

  datatype BalanceSheet = BalanceSheet(
    noCorrent: Section,
    corrent: Section,
    actiuTotal: real,
    patrimoniNet: Section,
    passiuNoCorrent: Section,
    passiuCorrent: Section,
    passiuTotal: real,
    endDate: Option<Date>)

  function EmptySheet(endDate: Option<Date>): BalanceSheet
  {
    var e := Section(0.0, []);
    BalanceSheet(e, e, 0.0, e, e, e, 0.0, endDate)
  }

  function SectionOf(r: BalanceSheet, s: Sub): Section
  {
    match s
    case NoCorrent => r.noCorrent
    case Corrent => r.corrent
    case PatrimoniNet => r.patrimoniNet
    case PassiuNoCorrent => r.passiuNoCorrent
    case PassiuCorrent => r.passiuCorrent
  }

  function WithSection(r: BalanceSheet, s: Sub, x: Section): BalanceSheet
  {
    match s
    case NoCorrent => r.(noCorrent := x)
    case Corrent => r.(corrent := x)
    case PatrimoniNet => r.(patrimoniNet := x)
    case PassiuNoCorrent => r.(passiuNoCorrent := x)
    case PassiuCorrent => r.(passiuCorrent := x)
  }

  /** Where an account goes: its sub-category and group. */
  datatype Placed = Placed(sub: Sub, group: string)

  /** Where `get_balance_sheet_report` places an asset account. */
  function AssetPlacementOf(code: string): (p: Placed)
    ensures IsActiu(p.sub)
  {
    if Leads(code, '2') then
      Placed(NoCorrent,
        if Leads2(code, '2', '0') then "I. Immobilitzat Intangible"
        else if Leads2(code, '2', '1') then "II. Immobilitzat Material"
        else if Leads2(code, '2', '2') then "III. Inversions Immobiliàries"
        else if Leads2(code, '2', '5') || Leads2(code, '2', '6') then "V. Inversions financeres a llarg termini"
        else "VI. Altres actius no corrents")
    else if Leads(code, '3') then Placed(Corrent, "I. Existències")
    else if Leads2(code, '4', '3') || Leads2(code, '4', '4') then
      Placed(Corrent, "II. Deutors comercials i altres comptes a cobrar")
    else if Leads2(code, '5', '7') then Placed(Corrent, "VII. Efectiu i altres actius líquids equivalents")
    else Placed(Corrent, "VI. Altres actius corrents")
  }

  /** Where `get_balance_sheet_report` places a liability (`equity` false) or equity account. */
  function SidePlacementOf(code: string, equity: bool): (p: Placed)
    ensures !IsActiu(p.sub)
  {
    if Leads2(code, '1', '0') || Leads2(code, '1', '1') || Leads2(code, '1', '2') then
      Placed(PatrimoniNet, "A-1) Fons Propis")
    else if Leads2(code, '1', '3') || Leads2(code, '1', '4') || Leads2(code, '1', '5')
            || Leads2(code, '1', '6') || Leads2(code, '1', '7') then
      Placed(PassiuNoCorrent, "II. Deutes a llarg termini")
    else if Leads2(code, '4', '0') || Leads2(code, '4', '1') then
      Placed(PassiuCorrent, "IV. Creditors comercials i altres comptes a pagar")
    else if Leads2(code, '5', '2') then Placed(PassiuCorrent, "III. Deutes a curt termini")
    else if equity then Placed(PatrimoniNet, "A-1) Fons Propis")
    else Placed(PassiuCorrent, "V. Altres passius corrents")
  }

  /** The classification of `get_balance_sheet_report`; income and expense accounts are not placed. */
  function Placement(a: LedgerAccount): (r: Option<Placed>)
    ensures r.None? <==> a.accountType == INCOME || a.accountType == EXPENSE
    ensures r.Some? ==> (IsActiu(r.value.sub) <==> a.accountType == ASSET)
  {
    match a.accountType
    case ASSET => Some(AssetPlacementOf(a.code))
    case LIABILITY => Some(SidePlacementOf(a.code, false))
    case EQUITY => Some(SidePlacementOf(a.code, true))
    case INCOME => None
    case EXPENSE => None
  }

  /** An asset is non-current exactly when its code starts with "2"; cash and receivables are current. */
  lemma AssetPlacement(a: LedgerAccount)
    requires a.accountType == ASSET
    ensures Placement(a).value.sub == NoCorrent <==> Leads(a.code, '2')
    ensures Leads2(a.code, '5', '7') ==> Placement(a).value == Placed(Corrent, "VII. Efectiu i altres actius líquids equivalents")
    ensures Leads2(a.code, '4', '3') || Leads2(a.code, '4', '4') ==>
      Placement(a).value == Placed(Corrent, "II. Deutors comercials i altres comptes a cobrar")
  {
    assert Placement(a) == Some(AssetPlacementOf(a.code));
    AssetNonCurrent(a.code);
    if Leads2(a.code, '5', '7') {
      AssetCash(a.code);
    }
    if Leads2(a.code, '4', '3') || Leads2(a.code, '4', '4') {
      AssetReceivable(a.code);
    }
  }

  lemma AssetNonCurrent(code: string)
    ensures AssetPlacementOf(code).sub == NoCorrent <==> Leads(code, '2')
  {
    if !Leads(code, '2') {
      assert AssetPlacementOf(code).sub == Corrent;
    }
  }

  lemma AssetCash(code: string)
    requires Leads2(code, '5', '7')
    ensures AssetPlacementOf(code) == Placed(Corrent, "VII. Efectiu i altres actius líquids equivalents")
  {
    assert !Leads(code, '2') && !Leads(code, '3') && !Leads2(code, '4', '3') && !Leads2(code, '4', '4');
  }

  lemma AssetReceivable(code: string)
    requires Leads2(code, '4', '3') || Leads2(code, '4', '4')
    ensures AssetPlacementOf(code) == Placed(Corrent, "II. Deutors comercials i altres comptes a cobrar")
  {
    assert !Leads(code, '2') && !Leads(code, '3');
  }

  /**
   * A liability is equity (patrimoni net) only with a code in 10-12; an
   * equity account is a current liability only with a code 40, 41 or 52.
   */
  lemma SidePlacement(a: LedgerAccount)
    requires a.accountType == LIABILITY || a.accountType == EQUITY
    ensures a.accountType == LIABILITY && Placement(a).value.sub == PatrimoniNet ==>
      Leads2(a.code, '1', '0') || Leads2(a.code, '1', '1') || Leads2(a.code, '1', '2')
    ensures a.accountType == EQUITY && Placement(a).value.sub == PassiuCorrent ==>
      Leads2(a.code, '4', '0') || Leads2(a.code, '4', '1') || Leads2(a.code, '5', '2')
    ensures Placement(a).value.sub == PassiuNoCorrent <==>
      !(Leads2(a.code, '1', '0') || Leads2(a.code, '1', '1') || Leads2(a.code, '1', '2')) &&
      (Leads2(a.code, '1', '3') || Leads2(a.code, '1', '4') || Leads2(a.code, '1', '5')
       || Leads2(a.code, '1', '6') || Leads2(a.code, '1', '7'))
  {
  }

  /** `add_to_category`: a zero amount adds nothing; otherwise the line goes into its group, and the amount into every total above it. */
  function AddToCategory(r: BalanceSheet, s: Sub, group: string, a: LedgerAccount, amount: real): BalanceSheet
  {
    if amount == 0.0 then r
    else
      var sec := SectionOf(r, s);
      var r1 := WithSection(r, s, Section(sec.total + amount, AddItem(sec.groups, group, ReportLine(a.code, a.name, amount))));
      if IsActiu(s) then r1.(actiuTotal := r.actiuTotal + amount) else r1.(passiuTotal := r.passiuTotal + amount)
  }

  predicate SectionConsistent(x: Section)
  {
    x.total == SumTotals(x.groups) && GroupsConsistent(x.groups) && NoZeroLines(x.groups)
  }

  /** Every total is the sum of its parts, and no line is zero. */
  predicate SheetConsistent(r: BalanceSheet)
  {
    && SectionConsistent(r.noCorrent) && SectionConsistent(r.corrent)
    && SectionConsistent(r.patrimoniNet) && SectionConsistent(r.passiuNoCorrent) && SectionConsistent(r.passiuCorrent)
    && r.actiuTotal == r.noCorrent.total + r.corrent.total
    && r.passiuTotal == r.patrimoniNet.total + r.passiuNoCorrent.total + r.passiuCorrent.total
  }

  lemma AddToCategoryKeeps(r: BalanceSheet, s: Sub, group: string, a: LedgerAccount, amount: real)
    requires SheetConsistent(r)
    ensures var t := AddToCategory(r, s, group, a, amount);
      && SheetConsistent(t) && t.endDate == r.endDate
      && t.actiuTotal == r.actiuTotal + (if IsActiu(s) then amount else 0.0)
      && t.passiuTotal == r.passiuTotal + (if IsActiu(s) then 0.0 else amount)
  {
    if amount != 0.0 {
      var sec := SectionOf(r, s);
      var l := ReportLine(a.code, a.name, amount);
      AddLineKeeps(sec, group, l);
      WithSectionKeeps(r, s, Section(sec.total + amount, AddItem(sec.groups, group, l)), amount);
    }
  }

  lemma AddLineKeeps(sec: Section, group: string, l: ReportLine)
    requires SectionConsistent(sec) && l.amount != 0.0
    ensures SectionConsistent(Section(sec.total + l.amount, AddItem(sec.groups, group, l)))
  {
    AddItemSum(sec.groups, group, l);
    AddItemConsistent(sec.groups, group, l);
    AddItemNoZero(sec.groups, group, l);
  }

  /** Replacing a section by a consistent one that is `amount` larger, and raising its side's total by as much, keeps the sheet consistent. */
  lemma WithSectionKeeps(r: BalanceSheet, s: Sub, x: Section, amount: real)
    requires SheetConsistent(r) && SectionConsistent(x) && x.total == SectionOf(r, s).total + amount
    ensures var r1 := WithSection(r, s, x);
      SheetConsistent(if IsActiu(s) then r1.(actiuTotal := r.actiuTotal + amount) else r1.(passiuTotal := r.passiuTotal + amount))
    ensures WithSection(r, s, x).endDate == r.endDate
    ensures WithSection(r, s, x).actiuTotal == r.actiuTotal && WithSection(r, s, x).passiuTotal == r.passiuTotal
  {
  }

  /** The report after the loop has seen `seen`; balances are those of `accounts` and `journal`. */
  function SheetFold(seen: seq<LedgerAccount>, accounts: seq<LedgerAccount>, journal: seq<EntryRecord>,
                     endDate: Option<Date>): (r: BalanceSheet)
    ensures SheetConsistent(r) && r.endDate == endDate
  {
    if seen == [] then EmptySheet(endDate)
    else SheetStep(SheetFold(seen[..|seen| - 1], accounts, journal, endDate), seen[|seen| - 1], accounts, journal, endDate)
  }

  /** One turn of the loop: an account with a non-zero balance and a place is added to its category. */
  function SheetStep(r: BalanceSheet, a: LedgerAccount, accounts: seq<LedgerAccount>, journal: seq<EntryRecord>,
                     endDate: Option<Date>): (t: BalanceSheet)
    requires SheetConsistent(r)
    ensures SheetConsistent(t) && t.endDate == r.endDate
  {
    var b := CodeBalance(accounts, journal, a.code, endDate);
    if b == 0.0 || Placement(a).None? then r
    else
      AddToCategoryKeeps(r, Placement(a).value.sub, Placement(a).value.group, a, b);
      AddToCategory(r, Placement(a).value.sub, Placement(a).value.group, a, b)
  }

  lemma SheetFoldLast(seen: seq<LedgerAccount>, i: nat, accounts: seq<LedgerAccount>, journal: seq<EntryRecord>,
                      endDate: Option<Date>)
    requires i < |seen|
    ensures SheetFold(seen[..i + 1], accounts, journal, endDate)
      == SheetStep(SheetFold(seen[..i], accounts, journal, endDate), seen[i], accounts, journal, endDate)
  {
    assert seen[..i + 1][..i] == seen[..i];
  }

  /** The sum of the balances of the accounts placed on one side: assets, or equity and liabilities. */
  function SideTotal(seen: seq<LedgerAccount>, accounts: seq<LedgerAccount>, journal: seq<EntryRecord>,
                     endDate: Option<Date>, actiu: bool): real
  {
    if seen == [] then 0.0
    else
      var a := seen[|seen| - 1];
      SideTotal(seen[..|seen| - 1], accounts, journal, endDate, actiu)
      + (if Placement(a).Some? && IsActiu(Placement(a).value.sub) == actiu
         then CodeBalance(accounts, journal, a.code, endDate) else 0.0)
  }

  /**
   * The total of the assets is the sum of the balances of the asset
   * accounts, and the total of equity and liabilities the sum of the
   * balances of the equity and liability accounts; income and expense
   * accounts count in neither.
   */
  lemma {:induction false} SheetTotals(seen: seq<LedgerAccount>, accounts: seq<LedgerAccount>, journal: seq<EntryRecord>,
                                       endDate: Option<Date>)
    ensures SheetFold(seen, accounts, journal, endDate).actiuTotal == SideTotal(seen, accounts, journal, endDate, true)
    ensures SheetFold(seen, accounts, journal, endDate).passiuTotal == SideTotal(seen, accounts, journal, endDate, false)
  {
    if seen != [] {
      var init := seen[..|seen| - 1];
      SheetTotals(init, accounts, journal, endDate);
      var r := SheetFold(init, accounts, journal, endDate);
      var a := seen[|seen| - 1];
      assert SheetFold(seen, accounts, journal, endDate) == SheetStep(r, a, accounts, journal, endDate);
      SheetStepTotals(r, a, accounts, journal, endDate);
    }
  }

  /** One turn of the loop adds the account's balance to the total of its side, if it has a place. */
  lemma SheetStepTotals(r: BalanceSheet, a: LedgerAccount, accounts: seq<LedgerAccount>, journal: seq<EntryRecord>,
                        endDate: Option<Date>)
    requires SheetConsistent(r)
    ensures var t := SheetStep(r, a, accounts, journal, endDate);
      var b := CodeBalance(accounts, journal, a.code, endDate);
      && t.actiuTotal == r.actiuTotal + (if Placement(a).Some? && IsActiu(Placement(a).value.sub) then b else 0.0)
      && t.passiuTotal == r.passiuTotal + (if Placement(a).Some? && !IsActiu(Placement(a).value.sub) then b else 0.0)
  {
    var b := CodeBalance(accounts, journal, a.code, endDate);
    if b != 0.0 && Placement(a).Some? {
      AddToCategoryKeeps(r, Placement(a).value.sub, Placement(a).value.group, a, b);
    }
  }

  // ---------------------------------------------------------------- profit and loss

  /** One account of the period's income or expense list: its code, name and balance. */
  datatype PLItem = PLItem(code: string, name: string, balance: real)

  /** Which result an amount counts in: operations, finance, or the tax on profits. */
  datatype Bucket = Explotacio | Financer | Impostos

  datatype PLClass = PLClass(group: string, bucket: Bucket)

  const TaxGroup: string := "16. Impostos sobre beneficis"

  /** The classification of income accounts; only 76 is financial. */
  function IncomeClass(code: string): (c: PLClass)
    ensures c.bucket != Impostos && c.group != TaxGroup
    ensures c.bucket == Financer <==> Leads2(code, '7', '6')
  {
    if Leads2(code, '7', '0') then PLClass("1. Import net de la xifra de negocis", Explotacio)
    else if Leads2(code, '7', '4') then PLClass("3. Subvencions d'explotació", Explotacio)
    else if Leads2(code, '7', '6') then PLClass("12. Ingressos financers", Financer)
    else PLClass("5. Altres ingressos d'explotació", Explotacio)
  }

  /** The classification of expense accounts: 66 is financial, 63 is the tax on profits, the rest is operating. */
  function ExpenseClass(code: string): (c: PLClass)
    ensures c.bucket == Impostos <==> Leads2(code, '6', '3')
    ensures TaxesApart(c)
    ensures c.bucket == Financer <==> Leads2(code, '6', '6')
  {
    if Leads2(code, '6', '0') then PLClass("4. Aprovisionaments", Explotacio)
    else if Leads2(code, '6', '4') then PLClass("6. Despeses de personal", Explotacio)
    else if Leads2(code, '6', '2') then PLClass("7. Altres despeses d'explotació", Explotacio)
    else if Leads2(code, '6', '8') then PLClass("8. Amortització de l'immobilitzat", Explotacio)
    else if Leads2(code, '6', '6') then PLClass("13. Despeses financeres", Financer)
    else if Leads2(code, '6', '3') then PLClass(TaxGroup, Impostos)
    else PLClass("7. Altres despeses d'explotació", Explotacio)
  }

  datatype ProfitLoss = ProfitLoss(
    explotacio: real,
    financer: real,
    abansImpostos: real,
    exercici: real,
    groups: seq<Named>,
    startDate: Option<Date>,
    endDate: Option<Date>)

  /** Exactly the tax class books into the tax group. */
  predicate TaxesApart(c: PLClass)
  {
    c.bucket == Impostos <==> c.group == TaxGroup
  }

  /** One turn of either loop: the line goes to its group, and the amount to its result unless it is a tax. */
  function Book(r: ProfitLoss, c: PLClass, l: ReportLine): ProfitLoss
  {
    r.(groups := AddItem(r.groups, c.group, l),
       explotacio := r.explotacio + (if c.bucket == Explotacio then l.amount else 0.0),
       financer := r.financer + (if c.bucket == Financer then l.amount else 0.0))
  }

  /** One turn of the income loop. */
  function IncomeStep(r: ProfitLoss, x: PLItem): ProfitLoss
  {
    Book(r, IncomeClass(x.code), ReportLine(x.code, x.name, x.balance))
  }

  /** One turn of the expense loop: expenses enter with their sign changed. */
  function ExpenseStep(r: ProfitLoss, x: PLItem): ProfitLoss
  {
    Book(r, ExpenseClass(x.code), ExpenseLine(x))
  }

  /** The report line of an expense account: its balance with the sign changed. */
  function ExpenseLine(x: PLItem): (l: ReportLine)
    ensures l.amount == -x.balance
  {
    ReportLine(x.code, x.name, -x.balance)
  }

  function IncomeFold(r: ProfitLoss, items: seq<PLItem>): ProfitLoss
  {
    if items == [] then r else IncomeStep(IncomeFold(r, items[..|items| - 1]), items[|items| - 1])
  }

  function ExpenseFold(r: ProfitLoss, items: seq<PLItem>): ProfitLoss
  {
    if items == [] then r else ExpenseStep(ExpenseFold(r, items[..|items| - 1]), items[|items| - 1])
  }

  lemma IncomeFoldLast(r: ProfitLoss, items: seq<PLItem>, i: nat)
    requires i < |items|
    ensures IncomeFold(r, items[..i + 1]) == IncomeStep(IncomeFold(r, items[..i]), items[i])
  {
    assert items[..i + 1][..i] == items[..i];
  }

  lemma ExpenseFoldLast(r: ProfitLoss, items: seq<PLItem>, i: nat)
    requires i < |items|
    ensures ExpenseFold(r, items[..i + 1]) == ExpenseStep(ExpenseFold(r, items[..i]), items[i])
  {
    assert items[..i + 1][..i] == items[..i];
  }

  function SumBalances(items: seq<PLItem>): real
  {
    if items == [] then 0.0 else SumBalances(items[..|items| - 1]) + items[|items| - 1].balance
  }

  /** `get_profit_loss_report` on the period's income and expense lists. */
  function ProfitLossOf(income: seq<PLItem>, expenses: seq<PLItem>, startDate: Option<Date>,
                        endDate: Option<Date>): ProfitLoss
  {
    WithResults(ExpenseFold(IncomeFold(ProfitLoss(0.0, 0.0, 0.0, 0.0, [], startDate, endDate), income), expenses))
  }

  /** After both loops: the pre-tax result is operations plus finance, and the year's result adds the tax group. */
  function WithResults(r: ProfitLoss): ProfitLoss
  {
    var before := r.explotacio + r.financer;
    r.(abansImpostos := before, exercici := before + GroupTotal(r.groups, TaxGroup))
  }

  /** The groups add up to the operating result, the financial result and the taxes together. */
  predicate PLConsistent(r: ProfitLoss)
  {
    GroupsConsistent(r.groups) && SumTotals(r.groups) == r.explotacio + r.financer + GroupTotal(r.groups, TaxGroup)
  }

  lemma BookKeeps(r: ProfitLoss, c: PLClass, l: ReportLine)
    requires PLConsistent(r) && TaxesApart(c)
    ensures PLConsistent(Book(r, c, l)) && SumTotals(Book(r, c, l).groups) == SumTotals(r.groups) + l.amount
  {
    AddItemSum(r.groups, c.group, l);
    AddItemGroupTotal(r.groups, c.group, l, TaxGroup);
    AddItemConsistent(r.groups, c.group, l);
  }

  lemma IncomeStepKeeps(r: ProfitLoss, x: PLItem)
    requires PLConsistent(r)
    ensures PLConsistent(IncomeStep(r, x)) && SumTotals(IncomeStep(r, x).groups) == SumTotals(r.groups) + x.balance
  {
    BookKeeps(r, IncomeClass(x.code), ReportLine(x.code, x.name, x.balance));
  }

  lemma ExpenseStepKeeps(r: ProfitLoss, x: PLItem)
    requires PLConsistent(r)
    ensures PLConsistent(ExpenseStep(r, x)) && SumTotals(ExpenseStep(r, x).groups) == SumTotals(r.groups) - x.balance
  {
    BookKeeps(r, ExpenseClass(x.code), ExpenseLine(x));
  }

  lemma {:induction false} IncomeFoldSum(r: ProfitLoss, items: seq<PLItem>)
    requires PLConsistent(r)
    ensures PLConsistent(IncomeFold(r, items))
    ensures SumTotals(IncomeFold(r, items).groups) == SumTotals(r.groups) + SumBalances(items)
  {
    if items != [] {
      var x := items[|items| - 1];
      IncomeFoldSum(r, items[..|items| - 1]);
      IncomeStepKeeps(IncomeFold(r, items[..|items| - 1]), x);
    }
  }

  lemma {:induction false} ExpenseFoldSum(r: ProfitLoss, items: seq<PLItem>)
    requires PLConsistent(r)
    ensures PLConsistent(ExpenseFold(r, items))
    ensures SumTotals(ExpenseFold(r, items).groups) == SumTotals(r.groups) - SumBalances(items)
  {
    if items != [] {
      var x := items[|items| - 1];
      ExpenseFoldSum(r, items[..|items| - 1]);
      ExpenseStepKeeps(ExpenseFold(r, items[..|items| - 1]), x);
    }
  }

  /**
   * The result of the year is total income less total expenses, and also the
   * sum of the group totals; the pre-tax result is the operating result
   * plus the financial result.
   */
  lemma ProfitLossResult(income: seq<PLItem>, expenses: seq<PLItem>, startDate: Option<Date>, endDate: Option<Date>)
    ensures var r := ProfitLossOf(income, expenses, startDate, endDate);
      && r.exercici == SumBalances(income) - SumBalances(expenses)
      && r.exercici == SumTotals(r.groups)
      && r.abansImpostos == r.explotacio + r.financer
      && GroupsConsistent(r.groups)
  {
    var r0 := ProfitLoss(0.0, 0.0, 0.0, 0.0, [], startDate, endDate);
    IncomeFoldSum(r0, income);
    ExpenseFoldSum(IncomeFold(r0, income), expenses);
  }

  /**
   * One more expense lowers the result of the year by its balance; it
   * lowers the operating result when it is an operating expense, the
   * financial result when its code starts with "66", and neither when it is
   * a tax on profits (code "63").
   */
  lemma OneMoreExpense(income: seq<PLItem>, expenses: seq<PLItem>, x: PLItem, startDate: Option<Date>,
                       endDate: Option<Date>)
    ensures var r := ProfitLossOf(income, expenses, startDate, endDate);
      var t := ProfitLossOf(income, expenses + [x], startDate, endDate);
      && t.exercici == r.exercici - x.balance
      && t.explotacio == r.explotacio - (if ExpenseClass(x.code).bucket == Explotacio then x.balance else 0.0)
      && t.financer == r.financer - (if Leads2(x.code, '6', '6') then x.balance else 0.0)
      && (Leads2(x.code, '6', '3') ==>
            t.explotacio == r.explotacio && t.financer == r.financer && t.abansImpostos == r.abansImpostos)
  {
    var e := expenses + [x];
    assert e[..|e| - 1] == expenses;
    ProfitLossResult(income, expenses, startDate, endDate);
    ProfitLossResult(income, e, startDate, endDate);
  }

  // ---------------------------------------------------------------- the service

  class ReportingService {
    const accounting: AccountingService

    constructor (accounting: AccountingService)
      ensures this.accounting == accounting
    {
      this.accounting := accounting;
    }

    /**
     * `get_balance_sheet_report`: every account with a non-zero balance,
     * asked of the accounting service, is added where its type and code
     * place it.
     */
    method GetBalanceSheetReport(endDate: Option<Date>) returns (r: BalanceSheet)
      ensures r == SheetFold(accounting.accounts, accounting.accounts, accounting.journal, endDate)
      ensures SheetConsistent(r)
    {
      var accounts := accounting.accounts;
      r := EmptySheet(endDate);
      for i := 0 to |accounts|
        invariant r == SheetFold(accounts[..i], accounts, accounting.journal, endDate)
      {
        SheetFoldLast(accounts, i, accounts, accounting.journal, endDate);
        var a := accounts[i];
        assert AccountKnown(accounts, a.code);
        var b := accounting.GetAccountBalance(a.code, endDate);
        var balance := b.value;
        if balance == 0.0 {
          continue;
        }
        var p := Placement(a);
        if p.Some? {
          r := AddToCategory(r, p.value.sub, p.value.group, a, balance);
        }
      }
      assert accounts[..|accounts|] == accounts;
    }

    /**
     * `get_profit_loss_report`, given the income and expense lists (code,
     * name and balance of each account, in dictionary order) of the period.
     */
    method GetProfitLossReport(income: seq<PLItem>, expenses: seq<PLItem>, startDate: Option<Date>,
                               endDate: Option<Date>) returns (r: ProfitLoss)
      ensures r == ProfitLossOf(income, expenses, startDate, endDate)
    {
      r := ProfitLoss(0.0, 0.0, 0.0, 0.0, [], startDate, endDate);
      ghost var r0 := r;
      for i := 0 to |income|
        invariant r == IncomeFold(r0, income[..i])
      {
        IncomeFoldLast(r0, income, i);
        var x := income[i];
        r := IncomeStep(r, x);
      }
      assert income[..|income|] == income;
      ghost var r1 := r;
      for i := 0 to |expenses|
        invariant r == ExpenseFold(r1, expenses[..i])
      {
        ExpenseFoldLast(r1, expenses, i);
        var x := expenses[i];
        r := ExpenseStep(r, x);
      }
      assert expenses[..|expenses|] == expenses;
      r := WithResults(r);
    }
  }
}
