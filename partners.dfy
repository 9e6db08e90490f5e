/**
 * Partners (customers and suppliers): the validity rule of a partner and
 * the partner register with its customer and supplier views.
 */
module Partners {
  import opened Wrappers
  import opened Text

  /** A partner; the generated uuid is the `id` the caller supplies. */
  datatype Partner = Partner(
    id: string,
    name: string,
    taxId: string,
    email: string,
    phone: string,
    isSupplier: bool,
    isCustomer: bool)

  /** What `Partner.validate` accepts. */
  predicate PartnerValid(p: Partner)
  {
    !Blank(p.name) && !Blank(p.taxId) && (p.isSupplier || p.isCustomer)
  }

  /** `Partner.validate`: name, then tax id, then at least one role. */
  function Validate(p: Partner): (r: Result<(), string>)
    ensures r.Ok? <==> PartnerValid(p)
    ensures Blank(p.name) ==> r == Err("El nom del partner és obligatori")
    ensures !Blank(p.name) && Blank(p.taxId) ==> r == Err("El NIF/CIF és obligatori")
    ensures !Blank(p.name) && !Blank(p.taxId) && !p.isSupplier && !p.isCustomer ==>
      r == Err("El partner ha de ser client, proveïdor o ambdós")
  {
    if Blank(p.name) then Err("El nom del partner és obligatori")
    else if Blank(p.taxId) then Err("El NIF/CIF és obligatori")
    else if !p.isSupplier && !p.isCustomer then Err("El partner ha de ser client, proveïdor o ambdós")
    else Ok(())
  }

  /** A name or tax id made only of whitespace is as blank as an empty one. */
  lemma WhitespaceNameRejected(p: Partner)
    requires AllSpace(p.name)
    ensures Validate(p) == Err("El nom del partner és obligatori")
  {
    StripEmptyIffBlank(p.name);
  }

  /** `find_by_tax_id`: the first partner with exactly that tax id. */
  function FindByTaxId(ps: seq<Partner>, taxId: string): (r: Option<Partner>)
    ensures r.None? <==> forall i :: 0 <= i < |ps| ==> ps[i].taxId != taxId
    ensures r.Some? ==> r.value in ps && r.value.taxId == taxId
  {
    if ps == [] then None
    else if ps[0].taxId == taxId then Some(ps[0])
    else FindByTaxId(ps[1..], taxId)
  }

  /** `find_by_id`: the first partner with that id. */
  function FindById(ps: seq<Partner>, id: string): (r: Option<Partner>)
    ensures r.None? <==> forall i :: 0 <= i < |ps| ==> ps[i].id != id
    ensures r.Some? ==> r.value in ps && r.value.id == id
  {
    if ps == [] then None
    else if ps[0].id == id then Some(ps[0])
    else FindById(ps[1..], id)
  }

  /** `[p for p in all_partners if p.is_customer]`. */
  function Customers(ps: seq<Partner>): seq<Partner>
  {
    if ps == [] then [] else (if ps[0].isCustomer then [ps[0]] else []) + Customers(ps[1..])
  }

  /** `[p for p in all_partners if p.is_supplier]`. */
  function Suppliers(ps: seq<Partner>): seq<Partner>
  {
    if ps == [] then [] else (if ps[0].isSupplier then [ps[0]] else []) + Suppliers(ps[1..])
  }

  /** The customer list holds exactly the partners that are customers. */
  lemma {:induction false} CustomersMembers(ps: seq<Partner>, x: Partner)
    ensures x in Customers(ps) <==> x in ps && x.isCustomer
  {
    if ps != [] {
      CustomersMembers(ps[1..], x);
      assert ps == [ps[0]] + ps[1..];
    }
  }

  /** The supplier list holds exactly the partners that are suppliers. */
  lemma {:induction false} SuppliersMembers(ps: seq<Partner>, x: Partner)
    ensures x in Suppliers(ps) <==> x in ps && x.isSupplier
  {
    if ps != [] {
      SuppliersMembers(ps[1..], x);
      assert ps == [ps[0]] + ps[1..];
    }
  }

  /** The head and the tail of a concatenation whose first part is not empty. */
  lemma ConsOfAppend(a: seq<Partner>, b: seq<Partner>)
    requires a != []
    ensures (a + b)[0] == a[0] && (a + b)[1..] == a[1..] + b
  {
  }

  lemma ConcatAssoc(x: seq<Partner>, y: seq<Partner>, z: seq<Partner>)
    ensures x + (y + z) == (x + y) + z
  {
  }

  /** The customer view keeps repository order: filtering a concatenation concatenates the filtered parts. */
  lemma {:induction false} CustomersAppend(a: seq<Partner>, b: seq<Partner>)
    ensures Customers(a + b) == Customers(a) + Customers(b)
  {
    if a == [] {
      assert a + b == b;
    } else {
      var h := if a[0].isCustomer then [a[0]] else [];
      ConsOfAppend(a, b);
      CustomersAppend(a[1..], b);
      ConcatAssoc(h, Customers(a[1..]), Customers(b));
    }
  }

  /** The supplier view keeps repository order. */
  lemma {:induction false} SuppliersAppend(a: seq<Partner>, b: seq<Partner>)
    ensures Suppliers(a + b) == Suppliers(a) + Suppliers(b)
  {
    if a == [] {
      assert a + b == b;
    } else {
      var h := if a[0].isSupplier then [a[0]] else [];
      ConsOfAppend(a, b);
      SuppliersAppend(a[1..], b);
      ConcatAssoc(h, Suppliers(a[1..]), Suppliers(b));
    }
  }

  /** A partner with both roles appears in both lists. */
  lemma BothRolesInBothLists(ps: seq<Partner>, x: Partner)
    requires x in ps && x.isCustomer && x.isSupplier
    ensures x in Customers(ps) && x in Suppliers(ps)
  {
    CustomersMembers(ps, x);
    SuppliersMembers(ps, x);
  }

  // ---------------------------------------------------------------- order by name

  /** Names in code-point order, the default (binary) collation of the database. */
  predicate SortedByName(ps: seq<Partner>)
  {
    forall i, j :: 0 <= i < j < |ps| ==> LexLe(ps[i].name, ps[j].name)
  }

  /** A partner whose name comes no later than any of a sorted list's leads it in order. */
  lemma ConsSortedByName(p: Partner, s: seq<Partner>)
    requires SortedByName(s)
    requires forall x :: x in s ==> LexLe(p.name, x.name)
    ensures SortedByName([p] + s)
  {
    var r := [p] + s;
    forall i, j | 0 <= i < j < |r| ensures LexLe(r[i].name, r[j].name) {
      assert r[j] == s[j - 1];
      if i > 0 {
        assert r[i] == s[i - 1];
      }
    }
  }

  /** `p` placed before the first partner whose name does not come before its own. */
  function InsertByName(p: Partner, s: seq<Partner>): (r: seq<Partner>)
    ensures multiset(r) == multiset(s) + multiset{p}
    ensures |r| == |s| + 1
  {
    if s == [] || LexLe(p.name, s[0].name) then
      [p] + s
    else
      assert s == [s[0]] + s[1..];
      [s[0]] + InsertByName(p, s[1..])
  }

  /** Inserting into a list in name order gives a list in name order. */
  lemma {:induction false} InsertKeepsNameOrder(p: Partner, s: seq<Partner>)
    requires SortedByName(s)
    ensures SortedByName(InsertByName(p, s))
  {
    if s == [] {
    } else if LexLe(p.name, s[0].name) {
      forall x | x in s ensures LexLe(p.name, x.name) {
        var k :| 0 <= k < |s| && s[k] == x;
        if k > 0 {
          LexLeTransitive(p.name, s[0].name, x.name);
        }
      }
      ConsSortedByName(p, s);
    } else {
      var t := s[1..];
      assert SortedByName(t) by {
        forall i, j | 0 <= i < j < |t| ensures LexLe(t[i].name, t[j].name) {
          assert t[i] == s[i + 1] && t[j] == s[j + 1];
        }
      }
      InsertKeepsNameOrder(p, t);
      LexLeTotal(p.name, s[0].name);
      forall x | x in InsertByName(p, t) ensures LexLe(s[0].name, x.name) {
        assert x in multiset(InsertByName(p, t));
        if x != p {
          assert x in multiset(t);
          var k :| 0 <= k < |t| && t[k] == x;
          assert s[k + 1] == x;
        }
      }
      ConsSortedByName(s[0], InsertByName(p, t));
    }
  }

  /** `list_all`: the register ordered by name, partners with the same name in the order they were stored. */
  function ListAll(ps: seq<Partner>): (r: seq<Partner>)
    ensures multiset(r) == multiset(ps)
    ensures SortedByName(r)
  {
    if ps == [] then []
    else
      assert ps == [ps[0]] + ps[1..];
      InsertKeepsNameOrder(ps[0], ListAll(ps[1..]));
      InsertByName(ps[0], ListAll(ps[1..]))
  }

  /** Filtering a list in name order keeps it in name order. */
  lemma {:induction false} CustomersSorted(ps: seq<Partner>)
    requires SortedByName(ps)
    ensures SortedByName(Customers(ps))
  {
    if ps != [] {
      var t := ps[1..];
      assert SortedByName(t) by {
        forall i, j | 0 <= i < j < |t| ensures LexLe(t[i].name, t[j].name) {
          assert t[i] == ps[i + 1] && t[j] == ps[j + 1];
        }
      }
      CustomersSorted(t);
      if ps[0].isCustomer {
        forall x | x in Customers(t) ensures LexLe(ps[0].name, x.name) {
          CustomersMembers(t, x);
          var k :| 0 <= k < |t| && t[k] == x;
          assert ps[k + 1] == x;
        }
        ConsSortedByName(ps[0], Customers(t));
      } else {
        assert Customers(ps) == Customers(t);
      }
    }
  }

  /** Filtering a list in name order keeps it in name order. */
  lemma {:induction false} SuppliersSorted(ps: seq<Partner>)
    requires SortedByName(ps)
    ensures SortedByName(Suppliers(ps))
  {
    if ps != [] {
      var t := ps[1..];
      assert SortedByName(t) by {
        forall i, j | 0 <= i < j < |t| ensures LexLe(t[i].name, t[j].name) {
          assert t[i] == ps[i + 1] && t[j] == ps[j + 1];
        }
      }
      SuppliersSorted(t);
      if ps[0].isSupplier {
        forall x | x in Suppliers(t) ensures LexLe(ps[0].name, x.name) {
          SuppliersMembers(t, x);
          var k :| 0 <= k < |t| && t[k] == x;
          assert ps[k + 1] == x;
        }
        ConsSortedByName(ps[0], Suppliers(t));
      } else {
        assert Suppliers(ps) == Suppliers(t);
      }
    }
  }

  /** The outcome of `create_partner` on a register: duplicate tax id first, then validation. */
  function NewPartner(ps: seq<Partner>, newId: string, name: string, taxId: string, email: string, phone: string,
                      isSupplier: bool, isCustomer: bool): (r: Result<Partner, string>)
    ensures FindByTaxId(ps, taxId).Some? ==> r == Err("Ja existeix un partner amb el NIF/CIF " + taxId)
    ensures r.Ok? <==> FindByTaxId(ps, taxId).None? && PartnerValid(Partner(newId, name, taxId, email, phone, isSupplier, isCustomer))
    ensures r.Ok? ==> r.value == Partner(newId, name, taxId, email, phone, isSupplier, isCustomer)
    ensures FindByTaxId(ps, taxId).None? && r.Err? ==>
      Validate(Partner(newId, name, taxId, email, phone, isSupplier, isCustomer)) == Err(r.error)
  {
    if FindByTaxId(ps, taxId).Some? then Err("Ja existeix un partner amb el NIF/CIF " + taxId)
    else
      var p := Partner(newId, name, taxId, email, phone, isSupplier, isCustomer);
      match Validate(p)
      case Err(e) => Err(e)
      case Ok(_) => Ok(p)
  }

  /** The register behind `PartnerService`, in insertion order. */
  class PartnerService {
    var partners: seq<Partner>

    constructor (partners: seq<Partner>)
      ensures this.partners == partners
    {
      this.partners := partners;
    }

    /** Tax ids are unique across the register. */
    predicate TaxIdsUnique()
      reads this
    {
      forall i, j :: 0 <= i < j < |partners| ==> partners[i].taxId != partners[j].taxId
    }

    /** `create_partner`: nothing is stored unless the tax id is new and the partner validates. */
    method CreatePartner(newId: string, name: string, taxId: string, email: string, phone: string,
                         isSupplier: bool, isCustomer: bool)
      returns (r: Result<Partner, string>)
      modifies this
      ensures r == NewPartner(old(partners), newId, name, taxId, email, phone, isSupplier, isCustomer)
      ensures partners == if r.Ok? then old(partners) + [r.value] else old(partners)
      ensures old(TaxIdsUnique()) ==> TaxIdsUnique()
    {
      r := NewPartner(partners, newId, name, taxId, email, phone, isSupplier, isCustomer);
      if r.Ok? {
        partners := partners + [r.value];
      }
    }

    /** `get_customers`: the customers among `list_all`, so in name order. */
    function GetCustomers(): (r: seq<Partner>)
      reads this
      ensures forall x :: x in r <==> x in partners && x.isCustomer
      ensures SortedByName(r)
    {
      var all := ListAll(partners);
      forall x ensures x in Customers(all) <==> x in partners && x.isCustomer {
        CustomersMembers(all, x);
        assert x in all <==> x in multiset(all);
      }
      CustomersSorted(all);
      Customers(all)
    }

    /** `get_suppliers`: the suppliers among `list_all`, so in name order. */
    function GetSuppliers(): (r: seq<Partner>)
      reads this
      ensures forall x :: x in r <==> x in partners && x.isSupplier
      ensures SortedByName(r)
    {
      var all := ListAll(partners);
      forall x ensures x in Suppliers(all) <==> x in partners && x.isSupplier {
        SuppliersMembers(all, x);
        assert x in all <==> x in multiset(all);
      }
      SuppliersSorted(all);
      Suppliers(all)
    }
  }
}
