/**
 * Budgets: a budget object whose lines grow by appending, and the service
 * that creates budgets, adds lines to stored ones and changes their status.
 * The repository is a map from budget id to the stored budget; saving a
 * loaded budget writes it back under the same id, so the service updates
 * the stored object in place. Generated uuids and clock readings are inputs.
 */
module Budgets {
  import opened Wrappers

  datatype BudgetStatus = Draft | Approved

  /** A planned amount for one account group ("6", "70", "628", ...). */
  datatype BudgetLine = BudgetLine(id: Option<string>, budgetId: string, accountGroup: string, amount: real)

  /** `self.id if self.id else ""`: an absent or empty id both give "". */
  function OwnerId(id: Option<string>): (r: string)
    ensures id.Some? ==> r == id.value
    ensures id.None? ==> r == ""
  {
    if id.Some? then id.value else ""
  }

  /** The total planned by a list of lines. */
  function Planned(lines: seq<BudgetLine>): real
  {
    if lines == [] then 0.0 else lines[0].amount + Planned(lines[1..])
  }

  /** Appending a line adds exactly its amount to the planned total. */
  lemma {:induction false} PlannedAppend(lines: seq<BudgetLine>, l: BudgetLine)
    ensures Planned(lines + [l]) == Planned(lines) + l.amount
  {
    if lines == [] {
      assert lines + [l] == [l];
      assert [l][1..] == [];
    } else {
      assert (lines + [l])[1..] == lines[1..] + [l];
      PlannedAppend(lines[1..], l);
    }
  }

  class Budget {
    var id: Option<string>
    var name: string
    var year: int
    var description: Option<string>
    var status: BudgetStatus
    var lines: seq<BudgetLine>
    var createdAt: int
    var updatedAt: int

    constructor (id: Option<string>, name: string, year: int, description: Option<string>,
                 status: BudgetStatus, lines: seq<BudgetLine>, createdAt: int, updatedAt: int)
      ensures this.id == id && this.name == name && this.year == year && this.description == description
      ensures this.status == status && this.lines == lines
      ensures this.createdAt == createdAt && this.updatedAt == updatedAt
    {
      this.id := id;
      this.name := name;
      this.year := year;
      this.description := description;
      this.status := status;
      this.lines := lines;
      this.createdAt := createdAt;
      this.updatedAt := updatedAt;
    }

    /**
     * `add_line`: one line without an id of its own, owned by this budget,
     * appended after the existing lines and returned; nothing else changes.
     */
    method AddLine(accountGroup: string, amount: real) returns (line: BudgetLine)
      modifies this
      ensures line == BudgetLine(None, OwnerId(id), accountGroup, amount)
      ensures lines == old(lines) + [line]
      ensures Planned(lines) == old(Planned(lines)) + amount
      ensures id == old(id) && name == old(name) && year == old(year) && description == old(description)
      ensures status == old(status) && createdAt == old(createdAt) && updatedAt == old(updatedAt)
    {
      line := BudgetLine(None, OwnerId(id), accountGroup, amount);
      PlannedAppend(lines, line);
      lines := lines + [line];
    }
  }

  /** `BudgetService` over its repository. */
  class BudgetService {
    var store: map<string, Budget>

    constructor ()
      ensures store == map[]
    {
      store := map[];
    }

    /** Every stored budget carries the id it is stored under, so no two keys share an object. */
    predicate Valid()
      reads this, store.Values
    {
      forall k :: k in store ==> store[k].id == Some(k)
    }

    /** `create_budget`: a new DRAFT budget without lines, stored under its fresh uuid. */
    method CreateBudget(newId: string, name: string, year: int, description: Option<string>, now: int)
      returns (b: Budget)
      requires Valid()
      modifies this
      ensures Valid()
      ensures fresh(b)
      ensures b.id == Some(newId) && b.name == name && b.year == year && b.description == description
      ensures b.status == Draft && b.lines == [] && b.createdAt == now && b.updatedAt == now
      ensures store == old(store)[newId := b]
    {
      b := new Budget(Some(newId), name, year, description, Draft, [], now, now);
      store := store[newId := b];
    }

    /**
     * `add_budget_line`: an unknown id gives None and changes nothing;
     * otherwise exactly one line is appended to that budget, its update time
     * is set, and every other budget is left as it was.
     */
    method AddBudgetLine(budgetId: string, lineId: string, accountGroup: string, amount: real, now: int)
      returns (r: Option<Budget>)
      requires Valid()
      modifies store.Values
      ensures Valid()
      ensures store == old(store)
      ensures budgetId !in store ==> r.None?
      ensures budgetId in store ==>
        var b := store[budgetId];
        && r == Some(b)
        && b.lines == old(b.lines) + [BudgetLine(Some(lineId), budgetId, accountGroup, amount)]
        && Planned(b.lines) == old(Planned(b.lines)) + amount
        && b.updatedAt == now
        && b.status == old(b.status) && b.name == old(b.name) && b.year == old(b.year)
        && b.description == old(b.description) && b.createdAt == old(b.createdAt)
      ensures forall k :: k in store && k != budgetId ==> unchanged(store[k])
    {
      if budgetId !in store {
        return None;
      }
      var b := store[budgetId];
      var line := BudgetLine(Some(lineId), budgetId, accountGroup, amount);
      PlannedAppend(b.lines, line);
      b.lines := b.lines + [line];
      b.updatedAt := now;
      r := Some(b);
    }

    /**
     * `update_status`: an unknown id gives None and changes nothing;
     * otherwise only the status and the update time of that budget change.
     */
    method UpdateStatus(budgetId: string, status: BudgetStatus, now: int) returns (r: Option<Budget>)
      requires Valid()
      modifies store.Values
      ensures Valid()
      ensures store == old(store)
      ensures budgetId !in store ==> r.None?
      ensures budgetId in store ==>
        var b := store[budgetId];
        && r == Some(b)
        && b.status == status && b.updatedAt == now
        && b.lines == old(b.lines) && b.name == old(b.name) && b.year == old(b.year)
        && b.description == old(b.description) && b.createdAt == old(b.createdAt)
      ensures forall k :: k in store && k != budgetId ==> unchanged(store[k])
    {
      if budgetId !in store {
        return None;
      }
      var b := store[budgetId];
      b.status := status;
      b.updatedAt := now;
      r := Some(b);
    }
  }
}
