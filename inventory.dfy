/**
 * Inventory: stock items and signed stock movements, and the service that
 * keeps the item register and the movement log. Saving an item replaces
 * the stored item with the same id, or adds it when there is none.
 */
module Inventory {
  import opened Wrappers
  import opened Text
  import opened Dates

  /** A stock item; `id` is the uuid it was given on construction. */
  datatype StockItem = StockItem(
    id: string,
    code: string,
    name: string,
    description: Option<string>,
    unitPrice: real,
    quantity: int,
    location: Option<string>,
    isActive: bool)

  /** An entry (positive quantity) or an exit (negative quantity) of one item. */
  datatype StockMovement = StockMovement(
    id: string,
    stockItemCode: string,
    date: Date,
    quantity: int,
    description: Option<string>)

  /** What `StockItem.validate` accepts. */
  predicate ItemValid(item: StockItem)
  {
    !Blank(item.code) && !Blank(item.name) && item.unitPrice >= 0.0 && item.quantity >= 0
  }

  /** `StockItem.validate`: code, name, price, quantity, in that order. */
  function ValidateItem(item: StockItem): (r: Result<(), string>)
    ensures r.Ok? <==> ItemValid(item)
    ensures Blank(item.code) ==> r == Err("El codi de l'article és obligatori")
    ensures !Blank(item.code) && Blank(item.name) ==> r == Err("El nom de l'article és obligatori")
    ensures !Blank(item.code) && !Blank(item.name) && item.unitPrice < 0.0 ==>
      r == Err("El preu unitari no pot ser negatiu")
    ensures !Blank(item.code) && !Blank(item.name) && item.unitPrice >= 0.0 && item.quantity < 0 ==>
      r == Err("La quantitat no pot ser negativa")
  {
    if Blank(item.code) then Err("El codi de l'article és obligatori")
    else if Blank(item.name) then Err("El nom de l'article és obligatori")
    else if item.unitPrice < 0.0 then Err("El preu unitari no pot ser negatiu")
    else if item.quantity < 0 then Err("La quantitat no pot ser negativa")
    else Ok(())
  }

  /** What `StockMovement.validate` accepts: an item code and any non-zero quantity. */
  predicate MovementValid(m: StockMovement)
  {
    !Blank(m.stockItemCode) && m.quantity != 0
  }

  /** `StockMovement.validate`. */
  function ValidateMovement(m: StockMovement): (r: Result<(), string>)
    ensures r.Ok? <==> MovementValid(m)
    ensures Blank(m.stockItemCode) ==> r == Err("El codi de l'article és obligatori")
    ensures !Blank(m.stockItemCode) && m.quantity == 0 ==> r == Err("La quantitat ha de ser diferent de zero")
  {
    if Blank(m.stockItemCode) then Err("El codi de l'article és obligatori")
    else if m.quantity == 0 then Err("La quantitat ha de ser diferent de zero")
    else Ok(())
  }

  /** `find_by_code`: the position of the first item with that code. */
  function CodeIndex(items: seq<StockItem>, code: string): (r: Option<nat>)
    ensures r.None? <==> forall i :: 0 <= i < |items| ==> items[i].code != code
    ensures r.Some? ==> r.value < |items| && items[r.value].code == code
  {
    if items == [] then None
    else if items[|items| - 1].code == code && CodeIndex(items[..|items| - 1], code).None? then Some(|items| - 1)
    else CodeIndex(items[..|items| - 1], code)
  }

  /** `find_by_id`: the position of the item with that id. */
  function IdIndex(items: seq<StockItem>, id: string): (r: Option<nat>)
    ensures r.None? <==> forall i :: 0 <= i < |items| ==> items[i].id != id
    ensures r.Some? ==> r.value < |items| && items[r.value].id == id
  {
    if items == [] then None
    else if items[|items| - 1].id == id && IdIndex(items[..|items| - 1], id).None? then Some(|items| - 1)
    else IdIndex(items[..|items| - 1], id)
  }

  /** `StockItemRepository.save`: overwrite the item with the same id, or add a new one. */
  function Save(items: seq<StockItem>, item: StockItem): (r: seq<StockItem>)
    ensures IdIndex(items, item.id).Some? ==> r == items[IdIndex(items, item.id).value := item]
    ensures IdIndex(items, item.id).None? ==> r == items + [item]
  {
    match IdIndex(items, item.id)
    case Some(i) => items[i := item]
    case None => items + [item]
  }

  /** `StockItemRepository.delete`: drop the items with that id. */
  function Delete(items: seq<StockItem>, id: string): (r: seq<StockItem>)
    ensures forall x :: x in r <==> x in items && x.id != id
  {
    if items == [] then []
    else (if items[0].id != id then [items[0]] else []) + Delete(items[1..], id)
  }

  /** No two stored items share an id. */
  predicate IdsUnique(items: seq<StockItem>)
  {
    forall i, j :: 0 <= i < j < |items| ==> items[i].id != items[j].id
  }

  /** No stored item has negative stock. */
  predicate StockNonNegative(items: seq<StockItem>)
  {
    forall i :: 0 <= i < |items| ==> items[i].quantity >= 0
  }

  /** Saving keeps ids unique, and keeps stock non-negative when the saved item has non-negative stock. */
  lemma SaveKeepsInvariant(items: seq<StockItem>, item: StockItem)
    requires IdsUnique(items) && StockNonNegative(items) && item.quantity >= 0
    ensures IdsUnique(Save(items, item)) && StockNonNegative(Save(items, item))
  {
    var r := Save(items, item);
    if IdIndex(items, item.id).None? {
      forall i, j | 0 <= i < j < |r| ensures r[i].id != r[j].id {
        if j == |items| { assert r[i] == items[i]; } else { assert r[i] == items[i] && r[j] == items[j]; }
      }
    }
  }

  /** Deleting keeps ids unique: the survivors are a subsequence of the register. */
  lemma {:induction false} DeleteKeepsIdsUnique(items: seq<StockItem>, id: string)
    requires IdsUnique(items)
    ensures IdsUnique(Delete(items, id))
  {
    if items != [] {
      TailUnique(items);
      DeleteKeepsIdsUnique(items[1..], id);
      if items[0].id != id {
        HeadIdFresh(items);
        ConsUnique(items[0], Delete(items[1..], id));
      }
    }
  }

  lemma TailUnique(items: seq<StockItem>)
    requires items != [] && IdsUnique(items)
    ensures IdsUnique(items[1..])
  {
    forall i, j | 0 <= i < j < |items[1..]| ensures items[1..][i].id != items[1..][j].id {
      assert items[1..][i] == items[i + 1] && items[1..][j] == items[j + 1];
    }
  }

  /** The first item's id is not repeated later. */
  lemma HeadIdFresh(items: seq<StockItem>)
    requires items != [] && IdsUnique(items)
    ensures forall y :: y in items[1..] ==> y.id != items[0].id
  {
    forall y | y in items[1..] ensures y.id != items[0].id {
      var k :| 0 <= k < |items[1..]| && items[1..][k] == y;
      assert items[k + 1] == y;
    }
  }

  /** Putting in front an item whose id the rest does not hold keeps the ids unique. */
  lemma ConsUnique(x: StockItem, t: seq<StockItem>)
    requires IdsUnique(t)
    requires forall y :: y in t ==> y.id != x.id
    ensures IdsUnique([x] + t)
  {
    var r := [x] + t;
    forall i, j | 0 <= i < j < |r| ensures r[i].id != r[j].id {
      assert r[j] == t[j - 1];
      if i == 0 {
        assert r[j] in t;
      } else {
        assert r[i] == t[i - 1];
      }
    }
  }

  /** Deleting keeps stock non-negative. */
  lemma DeleteKeepsStockNonNegative(items: seq<StockItem>, id: string)
    requires StockNonNegative(items)
    ensures StockNonNegative(Delete(items, id))
  {
    var r := Delete(items, id);
    forall i | 0 <= i < |r| ensures r[i].quantity >= 0 {
      assert r[i] in items;
    }
  }

  /** With unique ids, saving an item overwrites the stored item at the position of its id. */
  lemma SaveAtIndex(items: seq<StockItem>, i: nat, item: StockItem)
    requires IdsUnique(items) && i < |items| && items[i].id == item.id
    ensures Save(items, item) == items[i := item]
  {
    var k := IdIndex(items, item.id).value;
    assert k == i;
  }

  /** What `register_movement` does to the register: the stored item of that code gets the new stock. */
  function Movement(items: seq<StockItem>, m: StockMovement): (r: Result<seq<StockItem>, string>)
    requires IdsUnique(items)
    ensures ValidateMovement(m).Err? ==> r == Err(ValidateMovement(m).error)
    ensures MovementValid(m) && CodeIndex(items, m.stockItemCode).None? ==>
      r == Err("No s'ha trobat l'article amb codi " + m.stockItemCode)
    ensures MovementValid(m) && CodeIndex(items, m.stockItemCode).Some? ==>
      var i := CodeIndex(items, m.stockItemCode).value;
      var q := items[i].quantity + m.quantity;
      && (q < 0 ==> r == Err("Stock insuficient. Disponible: " + IntToString(items[i].quantity)
                             + ", Sol·licitat: " + IntToString(if m.quantity < 0 then -m.quantity else m.quantity)))
      && (q >= 0 ==> r == Ok(items[i := items[i].(quantity := q)]))
  {
    match ValidateMovement(m)
    case Err(e) => Err(e)
    case Ok(_) =>
      match CodeIndex(items, m.stockItemCode)
      case None => Err("No s'ha trobat l'article amb codi " + m.stockItemCode)
      case Some(i) =>
        var item := items[i];
        var q := item.quantity + m.quantity;
        if q < 0 then
          Err("Stock insuficient. Disponible: " + IntToString(item.quantity)
              + ", Sol·licitat: " + IntToString(if m.quantity < 0 then -m.quantity else m.quantity))
        else
          SaveAtIndex(items, i, item.(quantity := q));
          Ok(Save(items, item.(quantity := q)))
  }

  /**
   * A movement that succeeds adds its quantity to exactly one item, the one
   * with its code, and leaves every other item as it was; stock stays
   * non-negative.
   */
  lemma MovementEffect(items: seq<StockItem>, m: StockMovement)
    requires IdsUnique(items) && StockNonNegative(items)
    requires Movement(items, m).Ok?
    ensures var r := Movement(items, m).value;
      var i := CodeIndex(items, m.stockItemCode).value;
      && |r| == |items|
      && r[i].quantity == items[i].quantity + m.quantity
      && r[i] == items[i].(quantity := r[i].quantity)
      && (forall j :: 0 <= j < |items| && j != i ==> r[j] == items[j])
      && IdsUnique(r) && StockNonNegative(r)
  {
  }

  /** An exit larger than the stock is refused, whatever the item. */
  lemma OverdrawRefused(items: seq<StockItem>, m: StockMovement)
    requires IdsUnique(items) && MovementValid(m)
    requires CodeIndex(items, m.stockItemCode).Some?
    requires m.quantity < -items[CodeIndex(items, m.stockItemCode).value].quantity
    ensures Movement(items, m).Err?
  {
  }

  /** `InventoryService` over the item register and the movement log. */
  class InventoryService {
    var items: seq<StockItem>
    var movements: seq<StockMovement>

    constructor ()
      ensures items == [] && movements == []
    {
      items := [];
      movements := [];
    }

    predicate Valid()
      reads this
    {
      IdsUnique(items) && StockNonNegative(items)
    }

    /** `create_item`: validation, then a duplicate-code check, then save. */
    method CreateItem(item: StockItem) returns (r: Result<StockItem, string>)
      requires Valid()
      modifies this
      ensures Valid() && movements == old(movements)
      ensures ValidateItem(item).Err? ==> r == Err(ValidateItem(item).error) && items == old(items)
      ensures ItemValid(item) && CodeIndex(old(items), item.code).Some? ==>
        r == Err("Ja existeix un article amb el codi " + item.code) && items == old(items)
      ensures ItemValid(item) && CodeIndex(old(items), item.code).None? ==>
        r == Ok(item) && items == Save(old(items), item)
    {
      var v := ValidateItem(item);
      if v.Err? {
        return Err(v.error);
      }
      if CodeIndex(items, item.code).Some? {
        return Err("Ja existeix un article amb el codi " + item.code);
      }
      SaveKeepsInvariant(items, item);
      items := Save(items, item);
      r := Ok(item);
    }

    /** `update_item`: validation, then the item must exist by id, then save. */
    method UpdateItem(item: StockItem) returns (r: Result<StockItem, string>)
      requires Valid()
      modifies this
      ensures Valid() && movements == old(movements)
      ensures ValidateItem(item).Err? ==> r == Err(ValidateItem(item).error) && items == old(items)
      ensures ItemValid(item) && IdIndex(old(items), item.id).None? ==>
        r == Err("No s'ha trobat l'article amb ID " + item.id) && items == old(items)
      ensures ItemValid(item) && IdIndex(old(items), item.id).Some? ==>
        r == Ok(item) && items == old(items)[IdIndex(old(items), item.id).value := item]
    {
      var v := ValidateItem(item);
      if v.Err? {
        return Err(v.error);
      }
      if IdIndex(items, item.id).None? {
        return Err("No s'ha trobat l'article amb ID " + item.id);
      }
      SaveKeepsInvariant(items, item);
      items := Save(items, item);
      r := Ok(item);
    }

    /** `delete_item`: an unknown id raises; otherwise the item is removed. */
    method DeleteItem(id: string) returns (r: Result<(), string>)
      requires Valid()
      modifies this
      ensures Valid() && movements == old(movements)
      ensures IdIndex(old(items), id).None? ==> r == Err("No s'ha trobat l'article amb ID " + id) && items == old(items)
      ensures IdIndex(old(items), id).Some? ==> r == Ok(()) && items == Delete(old(items), id)
    {
      if IdIndex(items, id).None? {
        return Err("No s'ha trobat l'article amb ID " + id);
      }
      DeleteKeepsIdsUnique(items, id);
      DeleteKeepsStockNonNegative(items, id);
      items := Delete(items, id);
      r := Ok(());
    }

    /** `register_movement`: on success the stock changes and the movement is logged; on failure nothing changes. */
    method RegisterMovement(m: StockMovement) returns (r: Result<StockMovement, string>)
      requires Valid()
      modifies this
      ensures Valid()
      ensures Movement(old(items), m).Err? ==>
        r == Err(Movement(old(items), m).error) && items == old(items) && movements == old(movements)
      ensures Movement(old(items), m).Ok? ==>
        r == Ok(m) && items == Movement(old(items), m).value && movements == old(movements) + [m]
    {
      var e := Movement(items, m);
      if e.Err? {
        return Err(e.error);
      }
      MovementEffect(items, m);
      items := e.value;
      movements := movements + [m];
      r := Ok(m);
    }

    /** `get_stock_level`: the stored quantity of the item with that code. */
    function GetStockLevel(code: string): (r: Result<int, string>)
      reads this
      ensures CodeIndex(items, code).None? ==> r == Err("No s'ha trobat l'article amb codi " + code)
      ensures CodeIndex(items, code).Some? ==> r == Ok(items[CodeIndex(items, code).value].quantity)
      ensures Valid() && r.Ok? ==> r.value >= 0
    {
      match CodeIndex(items, code)
      case None => Err("No s'ha trobat l'article amb codi " + code)
      case Some(i) => Ok(items[i].quantity)
    }
  }

  /**
   * After a successful movement, looking the code up again finds the same
   * item, now holding the old stock plus the movement's quantity.
   */
  lemma StockLevelAfterMovement(items: seq<StockItem>, m: StockMovement)
    requires IdsUnique(items) && StockNonNegative(items)
    requires Movement(items, m).Ok?
    ensures var i := CodeIndex(items, m.stockItemCode).value;
      var r := Movement(items, m).value;
      && CodeIndex(r, m.stockItemCode) == Some(i)
      && r[i].quantity == items[i].quantity + m.quantity
  {
    var i := CodeIndex(items, m.stockItemCode).value;
    var r := Movement(items, m).value;
    MovementEffect(items, m);
    FirstCodeIndex(items, m.stockItemCode);
    FirstCodeIndex(r, m.stockItemCode);
  }

  /** `CodeIndex` finds the first item with the code. */
  lemma {:induction false} FirstCodeIndex(items: seq<StockItem>, code: string)
    requires CodeIndex(items, code).Some?
    ensures forall j :: 0 <= j < CodeIndex(items, code).value ==> items[j].code != code
  {
    if items != [] {
      var p := items[..|items| - 1];
      if CodeIndex(p, code).Some? {
        FirstCodeIndex(p, code);
      }
    }
  }
}
