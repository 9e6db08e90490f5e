/**
 * Fixed assets (immobilitzat) and their yearly linear depreciation. Each
 * depreciation is booked as a journal entry through the accounting service
 * and recorded on the asset; the asset register is a map from the
 * database id to the stored asset. Amounts are reals.
 */
module Assets {
  import opened Wrappers
  import opened Dates
  import opened Text
  import opened AccountingEntities
  import opened AccountingServices

  datatype AssetStatus = ACTIVE | SOLD | SCRAPPED | FULLY_DEPRECIATED

  /** One depreciation event (amortització). */
  datatype DepreciationEntry = DepreciationEntry(
    id: Option<int>,
    assetId: int,
    date: Date,
    amount: real,
    accumulatedDepreciation: real,
    description: string,
    journalEntryId: Option<int>)

  /** A stored asset; the only depreciation method is LINEAR. */
  datatype Asset = Asset(
    id: int,
    code: string,
    name: string,
    description: Option<string>,
    purchaseDate: Date,
    purchasePrice: real,
    usefulLifeYears: int,
    residualValue: real,
    status: AssetStatus,
    accountCodeAsset: string,
    accountCodeAccumulatedDepreciation: string,
    accountCodeDepreciationExpense: string,
    depreciationEntries: seq<DepreciationEntry>)

  /** `accumulated_depreciation`: the amounts of the entries added up; 0 for none. */
  function Accumulated(entries: seq<DepreciationEntry>): real
  {
    if entries == [] then 0.0 else Accumulated(entries[..|entries| - 1]) + entries[|entries| - 1].amount
  }

  /** Entries of non-negative amounts add up to a non-negative total. */
  lemma {:induction false} AccumulatedNonNegative(entries: seq<DepreciationEntry>)
    ensures (forall i :: 0 <= i < |entries| ==> entries[i].amount >= 0.0) ==> Accumulated(entries) >= 0.0
  {
    if entries != [] && forall i :: 0 <= i < |entries| ==> entries[i].amount >= 0.0 {
      var n := |entries| - 1;
      assert forall i :: 0 <= i < n ==> entries[..n][i] == entries[i];
      AccumulatedNonNegative(entries[..n]);
    }
  }

  /**
   * `current_value`: the purchase price less what has been depreciated; it
   * never exceeds the purchase price while no entry is negative.
   */
  function CurrentValue(a: Asset): (v: real)
    ensures a.depreciationEntries == [] ==> v == a.purchasePrice
    ensures (forall i :: 0 <= i < |a.depreciationEntries| ==> a.depreciationEntries[i].amount >= 0.0) ==>
      v <= a.purchasePrice
  {
    AccumulatedNonNegative(a.depreciationEntries);
    a.purchasePrice - Accumulated(a.depreciationEntries)
  }

  /** Recording one more entry lowers the current value by exactly its amount. */
  lemma RecordLowersValue(a: Asset, e: DepreciationEntry)
    ensures Accumulated(a.depreciationEntries + [e]) == Accumulated(a.depreciationEntries) + e.amount
    ensures CurrentValue(a.(depreciationEntries := a.depreciationEntries + [e])) == CurrentValue(a) - e.amount
  {
    assert (a.depreciationEntries + [e])[..|a.depreciationEntries|] == a.depreciationEntries;
  }

  /** `calculate_annual_depreciation`: the depreciable amount spread evenly over the useful life, 0 without one. */
  function AnnualDepreciation(a: Asset): (r: real)
    ensures a.usefulLifeYears > 0 ==> r * a.usefulLifeYears as real == a.purchasePrice - a.residualValue
    ensures a.usefulLifeYears <= 0 ==> r == 0.0
  {
    if a.usefulLifeYears > 0 then (a.purchasePrice - a.residualValue) / a.usefulLifeYears as real else 0.0
  }

  /** 10000 over ten years with no residual value is 1000 a year. */
  lemma TenThousandOverTenYears(a: Asset)
    requires a.purchasePrice == 10000.0 && a.residualValue == 0.0 && a.usefulLifeYears == 10
    ensures AnnualDepreciation(a) == 1000.0
  {
  }

  /** The amount of one step: the annual amount, capped at what is left above the residual value. */
  function StepAmount(a: Asset): (r: real)
    ensures r <= AnnualDepreciation(a) && r <= CurrentValue(a) - a.residualValue
    ensures r == AnnualDepreciation(a) || r == CurrentValue(a) - a.residualValue
  {
    var remaining := CurrentValue(a) - a.residualValue;
    var annual := AnnualDepreciation(a);
    if annual < remaining then annual else remaining
  }

  /** The description of the entry and of the journal entry of a year. */
  function StepDescription(a: Asset, year: int): string
  {
    "Amortització " + IntToString(year) + " - " + a.name
  }

  /** The two journal lines: the expense account is debited and the accumulated depreciation account credited. */
  function StepLines(a: Asset, amount: real): (lines: seq<JournalLine>)
    ensures |lines| == 2
    ensures TotalDebit(lines) == amount && TotalCredit(lines) == amount
    ensures IsBalanced(lines)
  {
    var lines := [JournalLine(a.accountCodeDepreciationExpense, amount, 0.0, "Amortització " + a.name),
                  JournalLine(a.accountCodeAccumulatedDepreciation, 0.0, amount, "Amortització " + a.name)];
    assert lines[..1] == [lines[0]] && lines[..1][..0] == [];
    assert TotalDebit(lines[..1]) == lines[0].debit && TotalCredit(lines[..1]) == lines[0].credit;
    lines
  }

  /** The year-end date on which a step is booked; `date(year, 12, 31)` exists only for the years 1 to 9999. */
  function YearEnd(year: int): (r: Option<Date>)
    ensures r.Some? <==> 1 <= year <= 9999
    ensures r.Some? ==> Valid(r.value) && r.value.year == year && r.value.month == 12 && r.value.day == 31
  {
    MakeDate(year, 12, 31)
  }

  /** The error of `date(year, 12, 31)` for a year outside 1 to 9999. */
  function YearOutOfRange(year: int): string
  {
    "year " + IntToString(year) + " is out of range"
  }

  /**
   * What a step gives before anything is stored: the year-end date is built
   * first, so a year out of range is refused; otherwise the result of
   * `create_journal_entry` for the two lines of the step.
   */
  function StepJournalEntry(accounts: seq<LedgerAccount>, a: Asset, year: int, journalId: string, entryNumber: int)
    : (r: Result<EntryRecord, string>)
    ensures YearEnd(year).None? ==> r == Err(YearOutOfRange(year))
    ensures r.Ok? ==> 1 <= year <= 9999 && r.value.entryDate == YearEnd(year).value
  {
    match YearEnd(year)
    case None => Err(YearOutOfRange(year))
    case Some(d) => NewEntry(accounts, journalId, entryNumber, d, StepDescription(a, year), StepLines(a, StepAmount(a)))
  }

  /** The entry recorded on the asset by a successful step, dated at the end of the year. */
  function StepEntry(a: Asset, year: int, rowId: int, entryNumber: int): (e: DepreciationEntry)
    requires 1 <= year <= 9999
    ensures e.amount == StepAmount(a)
    ensures e.accumulatedDepreciation == Accumulated(a.depreciationEntries) + e.amount
    ensures e.date == YearEnd(year).value
  {
    var amount := StepAmount(a);
    DepreciationEntry(Some(rowId), a.id, YearEnd(year).value, amount, Accumulated(a.depreciationEntries) + amount,
                      StepDescription(a, year), Some(entryNumber))
  }

  /** The asset after a successful step: the entry is recorded, and the status follows the remaining value. */
  function AfterStep(a: Asset, e: DepreciationEntry): Asset
  {
    a.(depreciationEntries := a.depreciationEntries + [e],
       status := if CurrentValue(a) - e.amount <= a.residualValue then FULLY_DEPRECIATED else a.status)
  }

  /** Stepping an asset that has value left keeps the accumulated depreciation within the depreciable amount. */
  lemma StepStaysWithinDepreciable(a: Asset, year: int, rowId: int, entryNumber: int)
    requires 1 <= year <= 9999
    requires CurrentValue(a) > a.residualValue
    ensures var b := AfterStep(a, StepEntry(a, year, rowId, entryNumber));
      Accumulated(b.depreciationEntries) <= a.purchasePrice - a.residualValue
      && CurrentValue(b) >= a.residualValue
  {
    RecordLowersValue(a, StepEntry(a, year, rowId, entryNumber));
  }

  /** After a step from ACTIVE, the asset is FULLY_DEPRECIATED exactly when its value has come down to the residual value. */
  lemma FullyDepreciatedIffAtResidual(a: Asset, year: int, rowId: int, entryNumber: int)
    requires 1 <= year <= 9999
    requires a.status == ACTIVE
    ensures var b := AfterStep(a, StepEntry(a, year, rowId, entryNumber));
      b.status == FULLY_DEPRECIATED <==> CurrentValue(b) <= a.residualValue
    ensures var b := AfterStep(a, StepEntry(a, year, rowId, entryNumber));
      b.status != FULLY_DEPRECIATED ==> b.status == ACTIVE
  {
    RecordLowersValue(a, StepEntry(a, year, rowId, entryNumber));
  }

  /** Every entry carries the running total of the amounts up to and including itself. */
  predicate RunningTotals(entries: seq<DepreciationEntry>)
  {
    forall i :: 0 <= i < |entries| ==> entries[i].accumulatedDepreciation == Accumulated(entries[..i + 1])
  }

  /** A step keeps the running totals of the recorded entries. */
  lemma StepKeepsRunningTotals(a: Asset, year: int, rowId: int, entryNumber: int)
    requires 1 <= year <= 9999
    requires RunningTotals(a.depreciationEntries)
    ensures RunningTotals(AfterStep(a, StepEntry(a, year, rowId, entryNumber)).depreciationEntries)
  {
    var e := StepEntry(a, year, rowId, entryNumber);
    var s := a.depreciationEntries + [e];
    forall i | 0 <= i < |s| ensures s[i].accumulatedDepreciation == Accumulated(s[..i + 1]) {
      if i < |a.depreciationEntries| {
        assert s[..i + 1] == a.depreciationEntries[..i + 1];
      } else {
        assert s[..i + 1] == s;
        RecordLowersValue(a, e);
      }
    }
  }

  /** An asset without a useful life gets a zero amount, so its journal lines fail validation. */
  lemma NoUsefulLifeNoEntry(a: Asset, accounts: seq<LedgerAccount>, id: string, entryNumber: int, year: int)
    requires a.usefulLifeYears <= 0 && CurrentValue(a) > a.residualValue
    ensures StepJournalEntry(accounts, a, year, id, entryNumber).Err?
  {
    var lines := StepLines(a, StepAmount(a));
    assert !LineValid(lines[0]);
  }

  /** An asset with the code is stored. */
  predicate CodeTaken(assets: map<int, Asset>, code: string)
  {
    exists k :: k in assets && assets[k].code == code
  }

  /** `get_asset`: the stored asset, or the not-found error. */
  function GetAsset(assets: map<int, Asset>, assetId: int): (r: Result<Asset, string>)
    ensures assetId in assets <==> r.Ok?
    ensures r.Ok? ==> r.value == assets[assetId]
    ensures r.Err? ==> r.error == "Asset with ID " + IntToString(assetId) + " not found"
  {
    if assetId in assets then Ok(assets[assetId]) else Err("Asset with ID " + IntToString(assetId) + " not found")
  }

  class AssetService {
    var assets: map<int, Asset>
    const accounting: AccountingService

    constructor (assets: map<int, Asset>, accounting: AccountingService)
      ensures this.assets == assets && this.accounting == accounting
    {
      this.assets := assets;
      this.accounting := accounting;
    }

    /** Every asset is stored under its own id. */
    predicate Valid()
      reads this
    {
      forall k :: k in assets ==> assets[k].id == k
    }

    /**
     * `create_asset`: a code already in use is refused; otherwise the asset
     * is stored under the id the database gives it, without entries.
     */
    method CreateAsset(asset: Asset, newId: int) returns (r: Result<Asset, string>)
      requires newId !in assets
      modifies this`assets
      ensures CodeTaken(old(assets), asset.code) ==>
        r == Err("Asset with code " + asset.code + " already exists") && assets == old(assets)
      ensures !CodeTaken(old(assets), asset.code) ==>
        r == Ok(asset.(id := newId, depreciationEntries := [])) && assets == old(assets)[newId := r.value]
      ensures old(Valid()) ==> Valid()
    {
      if exists k :: k in assets && assets[k].code == asset.code {
        return Err("Asset with code " + asset.code + " already exists");
      }
      var stored := asset.(id := newId, depreciationEntries := []);
      assets := assets[newId := stored];
      r := Ok(stored);
    }

    /**
     * `generate_depreciation_entries` for one year. A missing or non-active
     * asset is refused. An asset with no value left above its residual value
     * is marked FULLY_DEPRECIATED and refused. Otherwise the capped amount
     * is booked through `create_journal_entry` (whose error is passed on,
     * with nothing changed) and recorded on the asset; the journal entry
     * takes the journal's next number. The database row id of the entry is
     * an input.
     */
    method GenerateDepreciationEntry(assetId: int, year: int, journalId: string, rowId: int)
      returns (r: Result<DepreciationEntry, string>)
      modifies this`assets, accounting`journal
      ensures assetId !in old(assets) ==>
        r == Err("Asset with ID " + IntToString(assetId) + " not found")
        && assets == old(assets) && accounting.journal == old(accounting.journal)
      ensures assetId in old(assets) && old(assets)[assetId].status != ACTIVE ==>
        r == Err("Asset is not active") && assets == old(assets) && accounting.journal == old(accounting.journal)
      ensures assetId in old(assets) && old(assets)[assetId].status == ACTIVE
              && CurrentValue(old(assets)[assetId]) <= old(assets)[assetId].residualValue ==>
        r == Err("Asset is already fully depreciated")
        && assets == old(assets)[assetId := old(assets)[assetId].(status := FULLY_DEPRECIATED)]
        && accounting.journal == old(accounting.journal)
      ensures assetId in old(assets) && old(assets)[assetId].status == ACTIVE
              && CurrentValue(old(assets)[assetId]) > old(assets)[assetId].residualValue ==>
        var a := old(assets)[assetId];
        var n := NextEntryNumber(old(accounting.journal));
        var j := StepJournalEntry(accounting.accounts, a, year, journalId, n);
        && (j.Err? ==> r == Err(j.error) && assets == old(assets) && accounting.journal == old(accounting.journal))
        && (j.Ok? ==> r == Ok(StepEntry(a, year, rowId, n))
                      && assets == old(assets)[assetId := AfterStep(a, r.value)]
                      && accounting.journal == old(accounting.journal) + [j.value])
    {
      if assetId !in assets {
        return Err("Asset with ID " + IntToString(assetId) + " not found");
      }
      var a := assets[assetId];
      if a.status != ACTIVE {
        return Err("Asset is not active");
      }
      if CurrentValue(a) <= a.residualValue {
        assets := assets[assetId := a.(status := FULLY_DEPRECIATED)];
        return Err("Asset is already fully depreciated");
      }
      r := BookStep(a, year, journalId, rowId);
      if r.Ok? {
        assets := assets[assetId := AfterStep(a, r.value)];
      }
    }

    /** The booking half of a step: the journal entry, then the depreciation entry it is linked to. */
    method BookStep(a: Asset, year: int, journalId: string, rowId: int)
      returns (r: Result<DepreciationEntry, string>)
      modifies accounting`journal
      ensures var n := NextEntryNumber(old(accounting.journal));
        var j := StepJournalEntry(accounting.accounts, a, year, journalId, n);
        && (j.Err? ==> r == Err(j.error) && accounting.journal == old(accounting.journal))
        && (j.Ok? ==> r == Ok(StepEntry(a, year, rowId, n))
                      && accounting.journal == old(accounting.journal) + [j.value])
    {
      var d := YearEnd(year);
      if d.None? {
        return Err(YearOutOfRange(year));
      }
      var n := NextEntryNumber(accounting.journal);
      var j := accounting.CreateJournalEntry(journalId, d.value, StepDescription(a, year),
                                             StepLines(a, StepAmount(a)));
      if j.Err? {
        return Err(j.error);
      }
      r := Ok(StepEntry(a, year, rowId, n));
    }
  }
}
