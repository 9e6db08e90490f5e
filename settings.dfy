/**
 * Company settings: the one computed property, the postal address on a
 * single line.
 */
module Settings {
  import opened Text

  /** The address part of `CompanySettings`; the contact, SMTP and SII fields carry no logic. */
  datatype CompanySettings = CompanySettings(
    name: string,
    taxId: string,
    street: string,
    city: string,
    zip: string,
    province: string,
    country: string)

  /** The candidate parts of the address, in print order. */
  function AddressParts(s: CompanySettings): seq<string>
  {
    [s.street, s.zip + " " + s.city, s.province]
  }

  /** `[p for p in parts if p]`: the parts that are not the empty string. */
  function NonEmpty(parts: seq<string>): (r: seq<string>)
    ensures forall p :: p in r <==> p in parts && p != ""
    ensures |r| <= |parts|
  {
    if parts == [] then []
    else (if parts[0] != "" then [parts[0]] else []) + NonEmpty(parts[1..])
  }

  /**
   * `full_address`: the non-empty parts joined with ", ". The middle part
   * always holds a space, so it is never dropped; an empty street or
   * province is left out together with its separator.
   */
  function FullAddress(s: CompanySettings): (r: string)
    ensures r == (if s.street != "" then s.street + ", " else "") + s.zip + " " + s.city
                 + (if s.province != "" then ", " + s.province else "")
  {
    KeptParts(s);
    JoinKept(s);
    Join(NonEmpty(AddressParts(s)), ", ")
  }

  /** A part kept only when it is not empty. */
  function Optional(p: string): seq<string>
  {
    if p != "" then [p] else []
  }

  /** The filter keeps the middle part and drops exactly the empty ends. */
  lemma KeptParts(s: CompanySettings)
    ensures NonEmpty(AddressParts(s)) == Optional(s.street) + [s.zip + " " + s.city] + Optional(s.province)
  {
    var middle := s.zip + " " + s.city;
    assert middle != "" by { assert |middle| == |s.zip| + 1 + |s.city|; }
    var parts := AddressParts(s);
    assert parts[1..] == [middle, s.province] && parts[1..][1..] == [s.province];
    assert NonEmpty([s.province]) == Optional(s.province);
    assert NonEmpty(parts[1..]) == [middle] + Optional(s.province);
  }

  lemma JoinTwo(a: string, b: string, sep: string)
    ensures Join([a, b], sep) == a + sep + b
  {
    assert [a, b][1..] == [b];
  }

  lemma JoinThree(a: string, b: string, c: string, sep: string)
    ensures Join([a, b, c], sep) == a + sep + (b + sep + c)
  {
    assert [a, b, c][1..] == [b, c];
    JoinTwo(b, c, sep);
  }

  /** How the kept parts join, case by case. */
  lemma JoinKept(s: CompanySettings)
    ensures Join(NonEmpty(AddressParts(s)), ", ") ==
      (if s.street != "" then s.street + ", " else "") + s.zip + " " + s.city
      + (if s.province != "" then ", " + s.province else "")
  {
    var middle := s.zip + " " + s.city;
    KeptParts(s);
    if s.street != "" && s.province != "" {
      assert NonEmpty(AddressParts(s)) == [s.street, middle, s.province];
      JoinThree(s.street, middle, s.province, ", ");
    } else if s.street != "" {
      assert NonEmpty(AddressParts(s)) == [s.street, middle];
      JoinTwo(s.street, middle, ", ");
    } else if s.province != "" {
      assert NonEmpty(AddressParts(s)) == [middle, s.province];
      JoinTwo(middle, s.province, ", ");
    } else {
      assert NonEmpty(AddressParts(s)) == [middle];
    }
  }
}
