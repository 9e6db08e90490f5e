/**
 * The number generators of the sales repositories, as functions of the
 * numbers already stored: "PRE-<year>-<n>" for quotes, "ORD-<year>-<n>"
 * for orders, and the next integer of a (series, year) for invoices.
 */
module SalesNumbering {
  import opened Wrappers
  import opened Text
  import SalesEntities

  /** The greatest stored number under code-point order: `ORDER BY number DESC` then `first()`. */
  function Greatest(stored: seq<string>): (r: Option<string>)
    ensures r.None? <==> stored == []
    ensures r.Some? ==> r.value in stored && forall x :: x in stored ==> LexLe(x, r.value)
  {
    if stored == [] then None
    else
      var n := |stored| - 1;
      var g := Greatest(stored[..n]);
      MembersOfFront(stored);
      LexLeReflexive(stored[n]);
      if g.None? then
        assert forall x :: x in stored ==> x == stored[n];
        Some(stored[n])
      else if LexLe(g.value, stored[n]) then
        forall x | x in stored[..n] ensures LexLe(x, stored[n]) {
          LexLeTransitive(x, g.value, stored[n]);
        }
        Some(stored[n])
      else
        LexLeTotal(g.value, stored[n]);
        g
  }

  /** The default number: `f"{prefix}-{date.today().year}-001"`, with the current year an input (see `FirstTail`). */
  function DefaultNumber(prefix: string, currentYear: int): string
  {
    prefix + "-" + IntToString(currentYear) + "-" + PadInt(1, 3)
  }

  /** The number after `last`, when `last` has three dash-separated parts and an integer tail. */
  function Successor(prefix: string, last: string): (r: Option<string>)
  {
    var parts := Split(last, '-');
    if |parts| == 3 && ParseInt(parts[2]).Some? then
      Some(prefix + "-" + parts[1] + "-" + PadInt(ParseInt(parts[2]).value + 1, 3))
    else None
  }

  /**
   * `get_next_quote_number` / `get_next_order_number` as written: the
   * successor of the lexicographically greatest stored number, or the
   * default for the current year.
   */
  function NextNumberAsWritten(prefix: string, stored: seq<string>, currentYear: int): (r: string)
    ensures stored == [] ==> r == DefaultNumber(prefix, currentYear)
    ensures stored != [] ==>
      var last := Greatest(stored).value;
      r == if Successor(prefix, last).Some? then Successor(prefix, last).value else DefaultNumber(prefix, currentYear)
  {
    match Greatest(stored)
    case None => DefaultNumber(prefix, currentYear)
    case Some(last) =>
      match Successor(prefix, last)
      case None => DefaultNumber(prefix, currentYear)
      case Some(next) => next
  }

  /** A last number "P-Y-n" gives "prefix-Y-<n + 1, three digits at least>": the year is copied, not recomputed. */
  lemma SuccessorOfWellFormed(prefix: string, p: string, year: string, tail: string, v: int)
    requires '-' !in p && '-' !in year && '-' !in tail && ParseInt(tail) == Some(v)
    ensures Successor(prefix, p + "-" + year + "-" + tail) == Some(prefix + "-" + year + "-" + PadInt(v + 1, 3))
  {
    SplitThree(p, year, tail, '-');
  }

  /** The generator continues from the greatest stored number whenever that number has a successor. */
  lemma NextFromGreatest(prefix: string, stored: seq<string>, currentYear: int, last: string, next: string)
    requires Greatest(stored) == Some(last) && Successor(prefix, last) == Some(next)
    ensures NextNumberAsWritten(prefix, stored, currentYear) == next
  {
  }

  lemma GreatestOfOne(a: string)
    ensures Greatest([a]) == Some(a)
  {
    assert [a][..0] == [];
  }

  /** Any other shape of last number falls back to the current-year default. */
  lemma MalformedFallsBack(prefix: string, stored: seq<string>, currentYear: int)
    requires stored != []
    requires var parts := Split(Greatest(stored).value, '-'); |parts| != 3 || ParseInt(parts[2]).None?
    ensures NextNumberAsWritten(prefix, stored, currentYear) == DefaultNumber(prefix, currentYear)
  {
  }

  /** Starting from the result alone, the next number has the same year and a tail one higher. */
  lemma SuccessorChains(prefix: string, year: string, n: nat)
    requires '-' !in prefix && '-' !in year
    ensures var first := prefix + "-" + year + "-" + PadInt(n, 3);
      NextNumberAsWritten(prefix, [first], 0) == prefix + "-" + year + "-" + PadInt(n + 1, 3)
  {
    var first := prefix + "-" + year + "-" + PadInt(n, 3);
    NoMinusInPad(n);
    ParsePadInt(n, 3);
    SuccessorOfWellFormed(prefix, prefix, year, PadInt(n, 3), n);
    GreatestOfOne(first);
    NextFromGreatest(prefix, [first], 0, first, prefix + "-" + year + "-" + PadInt(n + 1, 3));
  }

  lemma NoMinusInPad(n: nat)
    ensures '-' !in PadInt(n, 3)
  {
    ZeroFillValue(NatToString(n), 3);
    assert forall i :: 0 <= i < |PadInt(n, 3)| ==> PadInt(n, 3)[i] != '-';
  }

  /**
   * The as-written generator repeats a number once a series passes 999:
   * "P-Y-999" sorts after "P-Y-1000" under code-point order, so the
   * successor of 999 is produced a second time. The tails are written
   * `PadInt(n, 3)` and `PadInt(n + 1, 3)` for n = 999, which `NineNineNine`
   * shows are "999" and "1000".
   */
  lemma NumberRepeatsAfter999(prefix: string, year: string, n: nat, currentYear: int)
    requires '-' !in prefix && '-' !in year && n == 999
    ensures var stored := [prefix + "-" + year + "-" + PadInt(n, 3), prefix + "-" + year + "-" + PadInt(n + 1, 3)];
      NextNumberAsWritten(prefix, stored, currentYear) == stored[1]
  {
    NineNineNine(n);
    NoMinusInPad(n);
    ParsePadInt(n, 3);
    RepeatWhenTailSortsHigher(prefix, year, PadInt(n, 3), PadInt(n + 1, 3), currentYear);
  }

  /** When a tail sorts after its successor's, the successor is the greatest stored number's successor again. */
  lemma RepeatWhenTailSortsHigher(prefix: string, year: string, t: string, u: string, currentYear: int)
    requires '-' !in prefix && '-' !in year && '-' !in t && ParseInt(t).Some?
    requires u == PadInt(ParseInt(t).value + 1, 3) && !LexLe(t, u)
    ensures var stored := [prefix + "-" + year + "-" + t, prefix + "-" + year + "-" + u];
      NextNumberAsWritten(prefix, stored, currentYear) == stored[1]
  {
    var p := prefix + "-" + year + "-";
    var a, b := p + t, p + u;
    assert a == prefix + "-" + year + "-" + t && b == prefix + "-" + year + "-" + u;
    LexLeSharedPrefix(p, t, u);
    GreatestOfTwo(a, b);
    SuccessorOfWellFormed(prefix, prefix, year, t, ParseInt(t).value);
    NextFromGreatest(prefix, [a, b], currentYear, a, prefix + "-" + year + "-" + u);
  }

  lemma GreatestOfTwo(a: string, b: string)
    requires !LexLe(a, b)
    ensures Greatest([a, b]) == Some(a)
  {
    LexLeReflexive(a);
    assert [a, b][..1] == [a];
    assert [a][..0] == [];
  }

  /** "999" and "1000": three padded digits and four, the first sorting after the second. */
  lemma NineNineNine(n: nat)
    requires n == 999
    ensures PadInt(n, 3) == "999" && PadInt(n + 1, 3) == "1000"
    ensures !LexLe(PadInt(n, 3), PadInt(n + 1, 3))
  {
    Digits999();
    Digits1000();
    PadWide(n);
    PadWide(n + 1);
  }

  lemma Digits999()
    ensures NatToString(999) == "999"
  {
  }

  lemma Digits1000()
    ensures NatToString(1000) == "1000"
  {
  }

  lemma PadWide(n: nat)
    requires |NatToString(n)| >= 3
    ensures PadInt(n, 3) == NatToString(n)
  {
    assert Repeat('0', 0) == [];
  }

  // ---------------------------------------------------------------- corrected generator

  /** A stored number the generator can continue from: three dash-separated parts and an integer tail. */
  predicate WellFormed(s: string)
  {
    var parts := Split(s, '-');
    |parts| == 3 && ParseInt(parts[2]).Some?
  }

  function TailValue(s: string): int
    requires WellFormed(s)
  {
    ParseInt(Split(s, '-')[2]).value
  }

  /** The first well-formed stored number with the greatest tail value. */
  function HighestTail(stored: seq<string>): (r: Option<string>)
    ensures r.None? <==> forall x :: x in stored ==> !WellFormed(x)
    ensures r.Some? ==> r.value in stored && WellFormed(r.value)
    ensures r.Some? ==> forall x :: x in stored && WellFormed(x) ==> TailValue(x) <= TailValue(r.value)
  {
    if stored == [] then None
    else
      var n := |stored| - 1;
      var h := HighestTail(stored[..n]);
      MembersOfFront(stored);
      var x := stored[n];
      if !WellFormed(x) then h
      else if h.None? || TailValue(h.value) < TailValue(x) then Some(x)
      else h
  }

  /** A non-empty sequence holds the members of its front and its last element, and nothing else. */
  lemma MembersOfFront(stored: seq<string>)
    requires stored != []
    ensures forall x :: x in stored <==> x in stored[..|stored| - 1] || x == stored[|stored| - 1]
  {
    assert stored == stored[..|stored| - 1] + [stored[|stored| - 1]];
  }

  /**
   * The evidently intended generator: continue from the stored number with
   * the greatest numeric tail, so that the new number is never one already
   * stored.
   */
  function NextNumber(prefix: string, stored: seq<string>, currentYear: int): (r: string)
  {
    match HighestTail(stored)
    case None => DefaultNumber(prefix, currentYear)
    case Some(last) => Successor(prefix, last).value
  }

  lemma DefaultWellFormed(prefix: string, currentYear: int)
    requires '-' !in prefix && currentYear >= 0
    ensures WellFormed(DefaultNumber(prefix, currentYear))
  {
    FirstTailParses(1);
    NoMinusInNat(currentYear);
    SplitThree(prefix, IntToString(currentYear), PadInt(1, 3), '-');
  }

  /** The default tail is "001". */
  lemma FirstTail()
    ensures PadInt(1, 3) == "001"
  {
  }

  lemma FirstTailParses(k: nat)
    requires k == 1
    ensures ParseInt(PadInt(k, 3)) == Some(1) && '-' !in PadInt(k, 3)
  {
    ParsePadInt(k, 3);
    NoMinusInPad(k);
  }

  lemma SuccessorWellFormed(prefix: string, last: string)
    requires '-' !in prefix && WellFormed(last)
    ensures Successor(prefix, last).Some?
    ensures WellFormed(Successor(prefix, last).value)
    ensures TailValue(Successor(prefix, last).value) == TailValue(last) + 1
  {
    var parts := Split(last, '-');
    var m := TailValue(last);
    assert m >= 0 by {
      SplitPieceNoSep(last, '-', 2);
      ParseIntNoMinus(parts[2]);
    }
    assert '-' !in parts[1] by {
      SplitPieceNoSep(last, '-', 1);
    }
    var next := prefix + "-" + parts[1] + "-" + PadInt(m + 1, 3);
    assert Successor(prefix, last) == Some(next);
    assert WellFormed(next) && TailValue(next) == m + 1 by {
      NoMinusInPad(m + 1);
      SplitThree(prefix, parts[1], PadInt(m + 1, 3), '-');
      ParsePadInt(m + 1, 3);
    }
  }

  /** The corrected generator never returns a number that is already stored. */
  lemma NextNumberFresh(prefix: string, stored: seq<string>, currentYear: int)
    requires '-' !in prefix && currentYear >= 0
    ensures NextNumber(prefix, stored, currentYear) !in stored
  {
    match HighestTail(stored)
    case None =>
      DefaultWellFormed(prefix, currentYear);
    case Some(last) =>
      SuccessorWellFormed(prefix, last);
  }

  lemma NoMinusInNat(n: nat)
    ensures '-' !in IntToString(n)
  {
    assert AllDigits(NatToString(n));
    assert forall i :: 0 <= i < |IntToString(n)| ==> IntToString(n)[i] != '-';
  }

  /** Every generated number starts with the prefix. */
  lemma NextNumberLeads(prefix: string, stored: seq<string>, currentYear: int)
    requires prefix != []
    ensures |NextNumber(prefix, stored, currentYear)| > 0 && NextNumber(prefix, stored, currentYear)[0] == prefix[0]
  {
  }

  /** `get_next_quote_number`, corrected. */
  function NextQuoteNumber(stored: seq<string>, currentYear: int): string
  {
    NextNumber("PRE", stored, currentYear)
  }

  /** `get_next_order_number`, corrected. */
  function NextOrderNumber(stored: seq<string>, currentYear: int): string
  {
    NextNumber("ORD", stored, currentYear)
  }

  /** A new quote number is never one already stored, and never blank. */
  lemma QuoteNumberFresh(stored: seq<string>, currentYear: nat)
    ensures NextQuoteNumber(stored, currentYear) !in stored
    ensures !Blank(NextQuoteNumber(stored, currentYear))
  {
    var p := "PRE";
    assert '-' !in p by {
      assert forall i :: 0 <= i < |p| ==> p[i] != '-';
    }
    NextNumberFresh(p, stored, currentYear);
    NextNumberLeads(p, stored, currentYear);
    NotBlankLeading(NextQuoteNumber(stored, currentYear));
  }

  /** A new order number is never one already stored, and never blank. */
  lemma OrderNumberFresh(stored: seq<string>, currentYear: nat)
    ensures NextOrderNumber(stored, currentYear) !in stored
    ensures !Blank(NextOrderNumber(stored, currentYear))
  {
    var p := "ORD";
    assert '-' !in p by {
      assert forall i :: 0 <= i < |p| ==> p[i] != '-';
    }
    NextNumberFresh(p, stored, currentYear);
    NextNumberLeads(p, stored, currentYear);
    NotBlankLeading(NextOrderNumber(stored, currentYear));
  }

  /** Whatever is stored, the order number is not blank. */
  lemma OrderNumberNotBlank(stored: seq<string>, currentYear: int)
    ensures !Blank(NextOrderNumber(stored, currentYear))
  {
    NextNumberLeads("ORD", stored, currentYear);
    NotBlankLeading(NextOrderNumber(stored, currentYear));
  }

  // ---------------------------------------------------------------- invoice numbers

  /** The highest stored number of a series and year, if any. */
  function MaxInvoiceNumber(invoices: seq<SalesEntities.InvoiceRecord>, series: string, year: int): (r: Option<int>)
    ensures r.None? <==> forall i :: 0 <= i < |invoices| ==> !(invoices[i].series == series && invoices[i].year == year)
    ensures r.Some? ==> exists i :: 0 <= i < |invoices| && invoices[i].series == series && invoices[i].year == year && invoices[i].number == r.value
    ensures r.Some? ==> forall i :: 0 <= i < |invoices| && invoices[i].series == series && invoices[i].year == year ==> invoices[i].number <= r.value
  {
    if invoices == [] then None
    else
      var n := |invoices| - 1;
      var m := MaxInvoiceNumber(invoices[..n], series, year);
      assert forall i :: 0 <= i < n ==> invoices[..n][i] == invoices[i];
      var v := invoices[n];
      if v.series != series || v.year != year then m
      else if m.None? || m.value < v.number then Some(v.number)
      else m
  }

  /** `get_next_invoice_number`: the highest number of the same series and year plus one, or 1. */
  function NextInvoiceNumber(invoices: seq<SalesEntities.InvoiceRecord>, series: string, year: int): (r: int)
    ensures forall i :: 0 <= i < |invoices| && invoices[i].series == series && invoices[i].year == year ==> invoices[i].number < r
    ensures (forall i :: 0 <= i < |invoices| ==> !(invoices[i].series == series && invoices[i].year == year)) ==> r == 1
    ensures r != 1 ==> exists i :: 0 <= i < |invoices| && invoices[i].series == series && invoices[i].year == year && invoices[i].number == r - 1
  {
    match MaxInvoiceNumber(invoices, series, year)
    case None => 1
    case Some(m) => m + 1
  }
}
