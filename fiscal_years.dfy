/**
 * Fiscal years: date ranges that open and close, and the service that keeps
 * them free of overlaps. The repository lists years by start date, latest
 * first; the model keeps its store in that order, so the overlap scan of
 * `create_fiscal_year` meets the years as the source does. Ids are the
 * database's auto-increment counter.
 */
module FiscalYears {
  import opened Wrappers
  import opened Dates

  datatype FiscalYearStatus = Open | Closed

  datatype FiscalYear = FiscalYear(name: string, startDate: Date, endDate: Date, status: FiscalYearStatus, id: int)

  /** Construction with `__post_init__`: the start must come strictly before the end. */
  function MakeFiscalYear(name: string, startDate: Date, endDate: Date, status: FiscalYearStatus, id: int)
    : (r: Result<FiscalYear, string>)
    ensures r.Ok? <==> Before(startDate, endDate)
    ensures r.Err? ==> r.error == "Start date must be before end date"
    ensures r.Ok? ==> r.value == FiscalYear(name, startDate, endDate, status, id)
    ensures r.Ok? ==> ContainsDate(r.value, startDate) && ContainsDate(r.value, endDate)
  {
    if !Before(startDate, endDate) then Err("Start date must be before end date")
    else Ok(FiscalYear(name, startDate, endDate, status, id))
  }

  /** `is_open`. */
  predicate IsOpen(y: FiscalYear) { y.status == Open }

  /** `contains_date`: inclusive at both ends. */
  predicate ContainsDate(y: FiscalYear, d: Date)
  {
    NotAfter(y.startDate, d) && NotAfter(d, y.endDate)
  }

  /** The test of the overlap scan: `start <= year.end_date and end >= year.start_date`. */
  predicate Overlaps(y: FiscalYear, start: Date, end: Date)
  {
    NotAfter(start, y.endDate) && NotAfter(y.startDate, end)
  }

  /** For well-formed ranges the scan's test holds exactly when the two ranges share a day. */
  lemma OverlapsIffSharedDay(y: FiscalYear, start: Date, end: Date)
    requires NotAfter(y.startDate, y.endDate) && NotAfter(start, end)
    ensures Overlaps(y, start, end) <==> exists d :: ContainsDate(y, d) && NotAfter(start, d) && NotAfter(d, end)
  {
    if Overlaps(y, start, end) {
      BeforeTotal(start, y.startDate);
      var d := if Before(start, y.startDate) then y.startDate else start;
      assert ContainsDate(y, d) && NotAfter(start, d) && NotAfter(d, end);
    }
    if exists d :: ContainsDate(y, d) && NotAfter(start, d) && NotAfter(d, end) {
      var d :| ContainsDate(y, d) && NotAfter(start, d) && NotAfter(d, end);
      NotAfterTransitive(start, d, y.endDate);
      NotAfterTransitive(y.startDate, d, end);
    }
  }

  // ---------------------------------------------------------------- the store

  predicate WellFormed(ys: seq<FiscalYear>)
  {
    forall i :: 0 <= i < |ys| ==> Before(ys[i].startDate, ys[i].endDate)
  }

  /** The order of `list_all`: start dates never increase along the list. */
  predicate StartsDesc(ys: seq<FiscalYear>)
  {
    forall i, j :: 0 <= i < j < |ys| ==> !Before(ys[i].startDate, ys[j].startDate)
  }

  /** No two stored years share a day. */
  predicate Disjoint(ys: seq<FiscalYear>)
  {
    forall i, j :: 0 <= i < j < |ys| ==> !Overlaps(ys[i], ys[j].startDate, ys[j].endDate)
  }

  predicate NamesUnique(ys: seq<FiscalYear>)
  {
    forall i, j :: 0 <= i < j < |ys| ==> ys[i].name != ys[j].name
  }

  predicate IdsUnique(ys: seq<FiscalYear>)
  {
    forall i, j :: 0 <= i < j < |ys| ==> ys[i].id != ys[j].id
  }

  /** `get_by_name`. */
  function FindByName(ys: seq<FiscalYear>, name: string): (r: Option<FiscalYear>)
    ensures r.None? <==> forall i :: 0 <= i < |ys| ==> ys[i].name != name
    ensures r.Some? ==> r.value in ys && r.value.name == name
  {
    if ys == [] then None
    else if ys[0].name == name then Some(ys[0])
    else FindByName(ys[1..], name)
  }

  /** `get_by_id`: the position of the year with that id. */
  function IdIndex(ys: seq<FiscalYear>, id: int): (r: Option<nat>)
    ensures r.None? <==> forall i :: 0 <= i < |ys| ==> ys[i].id != id
    ensures r.Some? ==> r.value < |ys| && ys[r.value].id == id
  {
    if ys == [] then None
    else if ys[|ys| - 1].id == id && IdIndex(ys[..|ys| - 1], id).None? then Some(|ys| - 1)
    else IdIndex(ys[..|ys| - 1], id)
  }

  /** `get_by_date`: the first stored year containing the date. */
  function FindByDate(ys: seq<FiscalYear>, d: Date): (r: Option<nat>)
    ensures r.None? <==> forall i :: 0 <= i < |ys| ==> !ContainsDate(ys[i], d)
    ensures r.Some? ==> r.value < |ys| && ContainsDate(ys[r.value], d)
  {
    if ys == [] then None
    else if ContainsDate(ys[|ys| - 1], d) && FindByDate(ys[..|ys| - 1], d).None? then Some(|ys| - 1)
    else FindByDate(ys[..|ys| - 1], d)
  }

  /** `get_current`: the first open year in list order, the one with the latest start. */
  function CurrentIndex(ys: seq<FiscalYear>): (r: Option<nat>)
    ensures r.None? <==> forall i :: 0 <= i < |ys| ==> !IsOpen(ys[i])
    ensures r.Some? ==> r.value < |ys| && IsOpen(ys[r.value])
    ensures r.Some? ==> forall j :: 0 <= j < r.value ==> !IsOpen(ys[j])
  {
    if ys == [] then None
    else if IsOpen(ys[0]) then Some(0)
    else match CurrentIndex(ys[1..])
      case None => None
      case Some(k) => Some(k + 1)
  }

  /** In a store ordered by descending start, no open year starts after the current one. */
  lemma CurrentIsLatestOpen(ys: seq<FiscalYear>, j: nat)
    requires StartsDesc(ys) && CurrentIndex(ys).Some?
    requires j < |ys| && IsOpen(ys[j])
    ensures !Before(ys[CurrentIndex(ys).value].startDate, ys[j].startDate)
  {
  }

  /** In a disjoint store a date lies in at most one year, so the lookup by date does not depend on order. */
  lemma AtMostOneYearPerDate(ys: seq<FiscalYear>, d: Date, i: int, j: int)
    requires Disjoint(ys) && WellFormed(ys)
    requires 0 <= i < |ys| && 0 <= j < |ys| && ContainsDate(ys[i], d) && ContainsDate(ys[j], d)
    ensures i == j
  {
    if i != j {
      var a, b := if i < j then i else j, if i < j then j else i;
      NotAfterTransitive(ys[b].startDate, d, ys[a].endDate);
      NotAfterTransitive(ys[a].startDate, d, ys[b].endDate);
      assert Overlaps(ys[a], ys[b].startDate, ys[b].endDate);
    }
  }

  /** The year the overlap scan stops at: the first one, in list order, that overlaps. */
  function FirstOverlap(ys: seq<FiscalYear>, start: Date, end: Date): (r: Option<FiscalYear>)
    ensures r.None? <==> forall i :: 0 <= i < |ys| ==> !Overlaps(ys[i], start, end)
    ensures r.Some? ==> r.value in ys && Overlaps(r.value, start, end)
  {
    if ys == [] then None
    else if Overlaps(ys[0], start, end) then Some(ys[0])
    else FirstOverlap(ys[1..], start, end)
  }

  /** The `for year in all_years` loop of `create_fiscal_year`. */
  method ScanOverlaps(ys: seq<FiscalYear>, start: Date, end: Date) returns (r: Option<FiscalYear>)
    ensures r == FirstOverlap(ys, start, end)
  {
    var i := 0;
    while i < |ys|
      invariant 0 <= i <= |ys|
      invariant FirstOverlap(ys[i..], start, end) == FirstOverlap(ys, start, end)
    {
      assert ys[i..][1..] == ys[i + 1..];
      if NotAfter(start, ys[i].endDate) && NotAfter(ys[i].startDate, end) {
        return Some(ys[i]);
      }
      i := i + 1;
    }
    return None;
  }

  /** Where `add` puts a new year so that the list stays ordered: before the first year that starts earlier. */
  function InsertPos(ys: seq<FiscalYear>, y: FiscalYear): (k: nat)
    ensures k <= |ys|
    ensures forall i :: 0 <= i < k ==> !Before(ys[i].startDate, y.startDate)
    ensures k < |ys| ==> Before(ys[k].startDate, y.startDate)
  {
    if ys == [] then 0
    else if Before(ys[0].startDate, y.startDate) then 0
    else 1 + InsertPos(ys[1..], y)
  }

  /** `add`: the store gains exactly the new year. */
  function Insert(ys: seq<FiscalYear>, y: FiscalYear): (r: seq<FiscalYear>)
    ensures |r| == |ys| + 1
    ensures forall x :: x in r <==> x in ys || x == y
  {
    assert ys == ys[..InsertPos(ys, y)] + ys[InsertPos(ys, y)..];
    ys[..InsertPos(ys, y)] + [y] + ys[InsertPos(ys, y)..]
  }

  /** The positions of the list after an insertion at `k`. */
  lemma InsertIndex(ys: seq<FiscalYear>, y: FiscalYear, i: int)
    requires 0 <= i <= |ys|
    ensures var k := InsertPos(ys, y); var r := Insert(ys, y);
      r[i] == if i < k then ys[i] else if i == k then y else ys[i - 1]
  {
  }

  /** `a <= b < c` gives `a < c`. */
  lemma NotAfterBefore(a: Date, b: Date, c: Date)
    requires NotAfter(a, b) && Before(b, c)
    ensures Before(a, c)
  {
  }

  /** Inserting at the computed position keeps start dates in descending order. */
  lemma InsertKeepsStartsDesc(ys: seq<FiscalYear>, y: FiscalYear)
    requires StartsDesc(ys)
    ensures StartsDesc(Insert(ys, y))
  {
    var k := InsertPos(ys, y);
    var r := Insert(ys, y);
    forall i | 0 <= i < |r| ensures r[i] == (if i < k then ys[i] else if i == k then y else ys[i - 1]) {
      InsertIndex(ys, y, i);
    }
    forall i, j | 0 <= i < j < |r| ensures !Before(r[i].startDate, r[j].startDate) {
      if i == k {
        var s := ys[j - 1].startDate;
        if j - 1 > k {
          BeforeTotal(ys[k].startDate, s);
        }
        assert NotAfter(s, ys[k].startDate);
        NotAfterBefore(s, ys[k].startDate, y.startDate);
        BeforeTotal(s, y.startDate);
      }
    }
  }

  /** Inserting a well-formed year that overlaps none keeps the store disjoint and well-formed. */
  lemma InsertKeepsDisjoint(ys: seq<FiscalYear>, y: FiscalYear)
    requires Disjoint(ys) && WellFormed(ys)
    requires Before(y.startDate, y.endDate)
    requires forall i :: 0 <= i < |ys| ==> !Overlaps(ys[i], y.startDate, y.endDate)
    ensures Disjoint(Insert(ys, y)) && WellFormed(Insert(ys, y))
  {
    var k := InsertPos(ys, y);
    var r := Insert(ys, y);
    forall i | 0 <= i < |r| ensures r[i] == (if i < k then ys[i] else if i == k then y else ys[i - 1]) {
      InsertIndex(ys, y, i);
    }
    forall i, j | 0 <= i < j < |r| ensures !Overlaps(r[i], r[j].startDate, r[j].endDate) {
      if i == k {
        assert !Overlaps(ys[j - 1], y.startDate, y.endDate);
      }
    }
  }

  // ---------------------------------------------------------------- the service

  /**
   * What the repository keeps: latest start first, no two years sharing a
   * day, every year starting before it ends, names and ids unique, and
   * every id below the next one to hand out.
   */
  predicate YearsValid(ys: seq<FiscalYear>, nextId: int)
  {
    && StartsDesc(ys) && Disjoint(ys) && WellFormed(ys)
    && NamesUnique(ys) && IdsUnique(ys)
    && (forall i :: 0 <= i < |ys| ==> ys[i].id < nextId)
  }

  /** Inserting a new, well-formed, non-overlapping year under the next id keeps the repository valid. */
  lemma InsertKeepsValid(ys: seq<FiscalYear>, nextId: int, y: FiscalYear)
    requires YearsValid(ys, nextId)
    requires FindByName(ys, y.name).None? && FirstOverlap(ys, y.startDate, y.endDate).None?
    requires Before(y.startDate, y.endDate) && y.id == nextId
    ensures YearsValid(Insert(ys, y), nextId + 1)
  {
    InsertKeepsStartsDesc(ys, y);
    InsertKeepsDisjoint(ys, y);
    InsertKeepsKeys(ys, y);
    var r := Insert(ys, y);
    forall i | 0 <= i < |r| ensures r[i].id < nextId + 1 {
      assert r[i] in ys || r[i] == y;
    }
  }

  class FiscalYearService {
    var years: seq<FiscalYear>
    var nextId: int

    constructor ()
      ensures years == [] && nextId == 1
    {
      years := [];
      nextId := 1;
    }

    /** The store is ordered, disjoint, well-formed, with unique names and ids below the counter. */
    predicate Valid()
      reads this
    {
      YearsValid(years, nextId)
    }

    /**
     * `create_fiscal_year`: a taken name, then an overlap with a stored year
     * (the first in list order is named), then a start not before the end,
     * are refused; otherwise a new OPEN year is stored under the next id.
     */
    method CreateFiscalYear(name: string, start: Date, end: Date) returns (r: Result<FiscalYear, string>)
      requires Valid()
      modifies this
      ensures Valid()
      ensures FindByName(old(years), name).Some? ==>
        r == Err("Fiscal year '" + name + "' already exists") && years == old(years)
      ensures FindByName(old(years), name).None? && FirstOverlap(old(years), start, end).Some? ==>
        r == Err("Date range overlaps with fiscal year '" + FirstOverlap(old(years), start, end).value.name + "'")
        && years == old(years)
      ensures FindByName(old(years), name).None? && FirstOverlap(old(years), start, end).None? && !Before(start, end) ==>
        r == Err("Start date must be before end date") && years == old(years)
      ensures r.Ok? ==>
        && r.value == FiscalYear(name, start, end, Open, old(nextId))
        && years == Insert(old(years), r.value)
        && nextId == old(nextId) + 1
      ensures r.Ok? <==> FindByName(old(years), name).None? && FirstOverlap(old(years), start, end).None? && Before(start, end)
    {
      if FindByName(years, name).Some? {
        return Err("Fiscal year '" + name + "' already exists");
      }
      var hit := ScanOverlaps(years, start, end);
      if hit.Some? {
        return Err("Date range overlaps with fiscal year '" + hit.value.name + "'");
      }
      var made := MakeFiscalYear(name, start, end, Open, nextId);
      if made.Err? {
        return Err(made.error);
      }
      var y := made.value;
      InsertKeepsValid(years, nextId, y);
      years := Insert(years, y);
      nextId := nextId + 1;
      r := Ok(y);
    }

    /** `close_fiscal_year`: a missing id or a year already CLOSED raises; otherwise its status becomes CLOSED. */
    method CloseFiscalYear(id: int) returns (r: Result<FiscalYear, string>)
      requires Valid()
      modifies this
      ensures Valid() && nextId == old(nextId)
      ensures IdIndex(old(years), id).None? ==> r == Err("Fiscal year not found") && years == old(years)
      ensures IdIndex(old(years), id).Some? ==>
        var k := IdIndex(old(years), id).value;
        && (old(years)[k].status == Closed ==> r == Err("Fiscal year is already closed") && years == old(years))
        && (old(years)[k].status == Open ==>
              r == Ok(old(years)[k].(status := Closed)) && years == old(years)[k := old(years)[k].(status := Closed)])
    {
      var k := IdIndex(years, id);
      if k.None? {
        return Err("Fiscal year not found");
      }
      var y := years[k.value];
      if y.status == Closed {
        return Err("Fiscal year is already closed");
      }
      SetStatusKeeps(years, k.value, Closed);
      years := years[k.value := y.(status := Closed)];
      r := Ok(y.(status := Closed));
    }

    /** `reopen_fiscal_year`: a missing id or a year already OPEN raises; otherwise its status becomes OPEN. */
    method ReopenFiscalYear(id: int) returns (r: Result<FiscalYear, string>)
      requires Valid()
      modifies this
      ensures Valid() && nextId == old(nextId)
      ensures IdIndex(old(years), id).None? ==> r == Err("Fiscal year not found") && years == old(years)
      ensures IdIndex(old(years), id).Some? ==>
        var k := IdIndex(old(years), id).value;
        && (old(years)[k].status == Open ==> r == Err("Fiscal year is already open") && years == old(years))
        && (old(years)[k].status == Closed ==>
              r == Ok(old(years)[k].(status := Open)) && years == old(years)[k := old(years)[k].(status := Open)])
    {
      var k := IdIndex(years, id);
      if k.None? {
        return Err("Fiscal year not found");
      }
      var y := years[k.value];
      if y.status == Open {
        return Err("Fiscal year is already open");
      }
      SetStatusKeeps(years, k.value, Open);
      years := years[k.value := y.(status := Open)];
      r := Ok(y.(status := Open));
    }

    /** `get_current_fiscal_year`: the open year that starts last, if any. */
    function GetCurrentFiscalYear(): (r: Option<FiscalYear>)
      reads this
      ensures r.None? <==> forall i :: 0 <= i < |years| ==> !IsOpen(years[i])
      ensures r.Some? ==> r.value in years && IsOpen(r.value)
      ensures Valid() && r.Some? ==>
        forall j :: 0 <= j < |years| && IsOpen(years[j]) ==> !Before(r.value.startDate, years[j].startDate)
    {
      match CurrentIndex(years)
      case None => None
      case Some(k) =>
        assert Valid() ==> forall j :: 0 <= j < |years| && IsOpen(years[j]) ==> !Before(years[k].startDate, years[j].startDate) by {
          if Valid() {
            forall j | 0 <= j < |years| && IsOpen(years[j]) ensures !Before(years[k].startDate, years[j].startDate) {
              CurrentIsLatestOpen(years, j);
            }
          }
        }
        Some(years[k])
    }

    /** `validate_date_in_open_year`: some stored year contains the date and that year is open. */
    function ValidateDateInOpenYear(d: Date): (r: bool)
      reads this
      ensures r <==> FindByDate(years, d).Some? && IsOpen(years[FindByDate(years, d).value])
      ensures Valid() ==> (r <==> exists i :: 0 <= i < |years| && ContainsDate(years[i], d) && IsOpen(years[i]))
    {
      OpenYearForDate(years, d);
      match FindByDate(years, d)
      case None => false
      case Some(k) => IsOpen(years[k])
    }
  }

  /** In a disjoint store, the date is in an open year exactly when the year found for it is open. */
  lemma OpenYearForDate(ys: seq<FiscalYear>, d: Date)
    ensures Disjoint(ys) && WellFormed(ys) ==>
      ((FindByDate(ys, d).Some? && IsOpen(ys[FindByDate(ys, d).value])) <==>
       exists i :: 0 <= i < |ys| && ContainsDate(ys[i], d) && IsOpen(ys[i]))
  {
    if Disjoint(ys) && WellFormed(ys) && exists i :: 0 <= i < |ys| && ContainsDate(ys[i], d) && IsOpen(ys[i]) {
      var i :| 0 <= i < |ys| && ContainsDate(ys[i], d) && IsOpen(ys[i]);
      AtMostOneYearPerDate(ys, d, i, FindByDate(ys, d).value);
    }
  }

  /** A new year with a fresh name and the next id keeps names and ids unique. */
  lemma InsertKeepsKeys(ys: seq<FiscalYear>, y: FiscalYear)
    requires NamesUnique(ys) && IdsUnique(ys)
    requires forall i :: 0 <= i < |ys| ==> ys[i].name != y.name && ys[i].id != y.id
    ensures NamesUnique(Insert(ys, y)) && IdsUnique(Insert(ys, y))
  {
    var r := Insert(ys, y);
    forall i, j | 0 <= i < j < |r| ensures r[i].name != r[j].name && r[i].id != r[j].id {
      InsertIndex(ys, y, i);
      InsertIndex(ys, y, j);
    }
  }

  /** Changing only the status of one year keeps every store invariant. */
  lemma SetStatusKeeps(ys: seq<FiscalYear>, k: nat, s: FiscalYearStatus)
    requires k < |ys|
    ensures var r := ys[k := ys[k].(status := s)];
      && (StartsDesc(ys) ==> StartsDesc(r)) && (Disjoint(ys) ==> Disjoint(r)) && (WellFormed(ys) ==> WellFormed(r))
      && (NamesUnique(ys) ==> NamesUnique(r)) && (IdsUnique(ys) ==> IdsUnique(r))
  {
    var r := ys[k := ys[k].(status := s)];
    assert forall i :: 0 <= i < |ys| ==>
      r[i].startDate == ys[i].startDate && r[i].endDate == ys[i].endDate && r[i].name == ys[i].name && r[i].id == ys[i].id;
  }

  /** Closing and then reopening a year restores the store. */
  lemma CloseThenReopen(ys: seq<FiscalYear>, k: nat)
    requires k < |ys| && ys[k].status == Open
    ensures var c := ys[k := ys[k].(status := Closed)];
      c[k := c[k].(status := Open)] == ys
  {
  }
}
