/**
 * The pure parts of the purchases repositories: the number generators of
 * orders ("PO-2025-<n>") and invoices ("PI-2025-<n>"), as functions of the
 * numbers already stored and of the time stamp used as a fallback tail, and
 * the ordering of lines by line number when a document is loaded.
 */
module PurchasesRepository {
  import opened Wrappers
  import opened Text
  import opened PurchasesEntities
  import SalesNumbering

  /** The number given when nothing is stored; the year is written into the code. */
  function FirstNumber(prefix: string): string
  {
    prefix + "-2025-" + PadInt(1, 3)
  }

  /** `int(number.split("-")[-1])`, None where `int` would raise. */
  function LastTail(s: string): Option<int>
  {
    ParseInt(LastPiece(s))
  }

  /** `number.split("-")[-1]`, which holds no dash. */
  function LastPiece(s: string): (r: string)
    ensures '-' !in r
  {
    var parts := Split(s, '-');
    SplitPieceNoSep(s, '-', |parts| - 1);
    parts[|parts| - 1]
  }

  /**
   * `get_next_order_number` / `get_next_invoice_number` as written: take the
   * greatest stored number under code-point order (`ORDER BY ... DESC`),
   * add one to its last dash segment and write it after "<prefix>-2025-"
   * with at least three digits; when that segment is not an integer, the
   * time stamp `stamp` (`%m%d%H%M` of now) is the tail instead.
   */
  function NextNumberAsWritten(prefix: string, stored: seq<string>, stamp: string): (r: string)
    ensures stored == [] ==> r == FirstNumber(prefix)
    ensures stored != [] ==>
      var t := LastTail(SalesNumbering.Greatest(stored).value);
      r == prefix + "-2025-" + (if t.Some? then PadInt(t.value + 1, 3) else stamp)
  {
    match SalesNumbering.Greatest(stored)
    case None => FirstNumber(prefix)
    case Some(last) =>
      match LastTail(last)
      case Some(n) => prefix + "-2025-" + PadInt(n + 1, 3)
      case None => prefix + "-2025-" + stamp
  }

  /** The year of the last number is not read: the next number is in 2025 whatever year the last one carries. */
  lemma YearIsIgnored(prefix: string, year: int, n: nat, stamp: string)
    requires '-' !in prefix && year >= 0
    ensures NextNumberAsWritten(prefix, [prefix + "-" + IntToString(year) + "-" + PadInt(n, 3)], stamp)
      == prefix + "-2025-" + PadInt(n + 1, 3)
  {
    var last := prefix + "-" + IntToString(year) + "-" + PadInt(n, 3);
    SalesNumbering.NoMinusInNat(year);
    SalesNumbering.NoMinusInPad(n);
    TailOfThree(prefix, IntToString(year), PadInt(n, 3));
    ParsePadInt(n, 3);
    SalesNumbering.GreatestOfOne(last);
    NextFromTail(prefix, [last], stamp, last, n);
  }

  /** The tail of "<p>-<y>-<t>" is `t` read as an integer. */
  lemma TailOfThree(p: string, y: string, t: string)
    requires '-' !in p && '-' !in y && '-' !in t
    ensures LastTail(p + "-" + y + "-" + t) == ParseInt(t)
  {
    SplitThree(p, y, t, '-');
  }

  /** The generator continues from the tail of the greatest stored number when it has one. */
  lemma NextFromTail(prefix: string, stored: seq<string>, stamp: string, last: string, n: int)
    requires SalesNumbering.Greatest(stored) == Some(last) && LastTail(last) == Some(n)
    ensures NextNumberAsWritten(prefix, stored, stamp) == prefix + "-2025-" + PadInt(n + 1, 3)
  {
  }

  /** A last number whose tail is not an integer gives the time-stamp number. */
  lemma MalformedTailUsesStamp(prefix: string, stored: seq<string>, stamp: string)
    requires stored != [] && LastTail(SalesNumbering.Greatest(stored).value).None?
    ensures NextNumberAsWritten(prefix, stored, stamp) == prefix + "-2025-" + stamp
  {
  }

  /**
   * The as-written generator gives a number that is already stored once the
   * series passes 999: "PO-2025-999" sorts after "PO-2025-1000", so the
   * successor of 999 comes out again.
   */
  lemma NumberRepeatsAfter999(prefix: string, n: nat, stamp: string)
    requires '-' !in prefix && n == 999
    ensures var stored := [prefix + "-2025-" + PadInt(n, 3), prefix + "-2025-" + PadInt(n + 1, 3)];
      NextNumberAsWritten(prefix, stored, stamp) == stored[1]
  {
    SalesNumbering.NineNineNine(n);
    SalesNumbering.NoMinusInPad(n);
    ParsePadInt(n, 3);
    RepeatWhenTailSortsHigher(prefix, PadInt(n, 3), PadInt(n + 1, 3), stamp);
  }

  /** When a tail sorts after its successor's, the greatest stored number is the older one, and its successor is stored already. */
  lemma RepeatWhenTailSortsHigher(prefix: string, t: string, u: string, stamp: string)
    requires '-' !in prefix && '-' !in t && ParseInt(t).Some?
    requires u == PadInt(ParseInt(t).value + 1, 3) && !LexLe(t, u)
    ensures var stored := [prefix + "-2025-" + t, prefix + "-2025-" + u];
      NextNumberAsWritten(prefix, stored, stamp) == stored[1]
  {
    var p := prefix + "-2025-";
    assert SalesNumbering.Greatest([p + t, p + u]) == Some(p + t) by {
      LexLeSharedPrefix(p, t, u);
      SalesNumbering.GreatestOfTwo(p + t, p + u);
    }
    assert LastTail(p + t) == Some(ParseInt(t).value) by {
      TailOfBuilt(prefix, t);
    }
    NextFromTail(prefix, [p + t, p + u], stamp, p + t, ParseInt(t).value);
  }

  lemma YearHasNoDash()
    ensures '-' !in "2025"
  {
    var y := "2025";
    assert forall i :: 0 <= i < |y| ==> y[i] != '-';
  }

  /** The tail of "<prefix>-2025-<t>" is `t` read as an integer. */
  lemma TailOfBuilt(prefix: string, t: string)
    requires '-' !in prefix && '-' !in t
    ensures LastTail(prefix + "-2025-" + t) == ParseInt(t)
  {
    YearHasNoDash();
    assert prefix + "-2025-" + t == prefix + "-" + "2025" + "-" + t;
    TailOfThree(prefix, "2025", t);
  }

  // ---------------------------------------------------------------- corrected generator

  /** The greatest of the present values, if any is present. */
  function MaxOf(ts: seq<Option<int>>): Option<int>
  {
    if ts == [] then None
    else
      var m, t := MaxOf(ts[..|ts| - 1]), ts[|ts| - 1];
      if t.None? then m
      else if m.None? || m.value < t.value then t
      else m
  }

  /** `MaxOf` is one of the present values, and none is greater. */
  lemma {:induction false} MaxOfBounds(ts: seq<Option<int>>)
    ensures MaxOf(ts).None? <==> forall i :: 0 <= i < |ts| ==> ts[i].None?
    ensures MaxOf(ts).Some? ==> exists i :: 0 <= i < |ts| && ts[i] == MaxOf(ts)
    ensures MaxOf(ts).Some? ==> forall i :: 0 <= i < |ts| && ts[i].Some? ==> ts[i].value <= MaxOf(ts).value
  {
    if ts != [] {
      var n := |ts| - 1;
      MaxOfBounds(ts[..n]);
      assert forall i :: 0 <= i < n ==> ts[..n][i] == ts[i];
      if MaxOf(ts[..n]).Some? && MaxOf(ts) == MaxOf(ts[..n]) {
        var i :| 0 <= i < n && ts[..n][i] == MaxOf(ts[..n]);
        assert ts[i] == MaxOf(ts);
      }
    }
  }

  /** The integer tail of each stored number. */
  function Tails(stored: seq<string>): (r: seq<Option<int>>)
    ensures |r| == |stored| && forall i :: 0 <= i < |stored| ==> r[i] == LastTail(stored[i])
  {
    seq(|stored|, i requires 0 <= i < |stored| => LastTail(stored[i]))
  }

  /** The greatest integer tail among the stored numbers, if any has one. */
  function MaxTail(stored: seq<string>): Option<int>
  {
    MaxOf(Tails(stored))
  }

  /**
   * The evidently intended generator: continue from the greatest integer
   * tail, not from the tail of the greatest string; the first number and the
   * time-stamp fallback are as in the code.
   */
  function NextNumber(prefix: string, stored: seq<string>, stamp: string): string
  {
    match MaxTail(stored)
    case Some(n) => prefix + "-2025-" + PadInt(n + 1, 3)
    case None => if stored == [] then FirstNumber(prefix) else prefix + "-2025-" + stamp
  }

  /** A number built by the generator has the integer tail it was built with. */
  lemma BuiltTail(prefix: string, k: int)
    requires '-' !in prefix && k >= 0
    ensures LastTail(prefix + "-2025-" + PadInt(k, 3)) == Some(k)
  {
    SalesNumbering.NoMinusInPad(k);
    TailOfBuilt(prefix, PadInt(k, 3));
    ParsePadInt(k, 3);
  }

  /** No stored tail is negative: the last dash segment holds no minus sign. */
  lemma TailNotNegative(s: string)
    ensures LastTail(s).Some? ==> LastTail(s).value >= 0
  {
    ParseIntNoMinus(LastPiece(s));
  }

  /**
   * The corrected generator never repeats a stored number, unless it has to
   * fall back on the time stamp (something is stored, but no stored number
   * has an integer tail).
   */
  lemma NextNumberFresh(prefix: string, stored: seq<string>, stamp: string)
    requires '-' !in prefix
    requires stored == [] || exists x :: x in stored && LastTail(x).Some?
    ensures NextNumber(prefix, stored, stamp) !in stored
  {
    MaxTailFacts(stored);
    if MaxTail(stored).Some? {
      AboveAllTails(prefix, stored, MaxTail(stored).value + 1);
    }
  }

  /** No stored tail when there is no greatest one; otherwise it is not negative and bounds every stored tail. */
  lemma MaxTailFacts(stored: seq<string>)
    ensures MaxTail(stored).None? ==> forall x :: x in stored ==> LastTail(x).None?
    ensures MaxTail(stored).Some? ==> MaxTail(stored).value >= 0
    ensures MaxTail(stored).Some? ==>
      forall j :: 0 <= j < |stored| && LastTail(stored[j]).Some? ==> LastTail(stored[j]).value < MaxTail(stored).value + 1
  {
    var ts := Tails(stored);
    MaxOfBounds(ts);
    if MaxTail(stored).None? {
      forall x | x in stored ensures LastTail(x).None? {
        var j :| 0 <= j < |stored| && stored[j] == x;
        assert ts[j].None?;
      }
    } else {
      var n := MaxTail(stored).value;
      var i :| 0 <= i < |ts| && ts[i] == Some(n);
      TailNotNegative(stored[i]);
    }
  }

  /** A built number whose tail is above every stored tail is not stored. */
  lemma AboveAllTails(prefix: string, stored: seq<string>, k: int)
    requires '-' !in prefix && k >= 0
    requires forall j :: 0 <= j < |stored| && LastTail(stored[j]).Some? ==> LastTail(stored[j]).value < k
    ensures prefix + "-2025-" + PadInt(k, 3) !in stored
  {
    BuiltTail(prefix, k);
  }

  /** The corrected generator agrees with the code whenever the greatest string also has the greatest tail. */
  lemma AgreesWhenOrdersAgree(prefix: string, stored: seq<string>, stamp: string)
    requires stored != [] && MaxTail(stored).Some?
    requires LastTail(SalesNumbering.Greatest(stored).value) == MaxTail(stored)
    ensures NextNumber(prefix, stored, stamp) == NextNumberAsWritten(prefix, stored, stamp)
  {
  }

  /** `get_next_order_number`, corrected. */
  function NextOrderNumber(stored: seq<string>, stamp: string): string
  {
    NextNumber("PO", stored, stamp)
  }

  /** `get_next_invoice_number`, corrected. */
  function NextInvoiceNumber(stored: seq<string>, stamp: string): string
  {
    NextNumber("PI", stored, stamp)
  }

  lemma OrderNumberFresh(stored: seq<string>, stamp: string)
    requires stored == [] || exists x :: x in stored && LastTail(x).Some?
    ensures NextOrderNumber(stored, stamp) !in stored
  {
    var p := "PO";
    assert '-' !in p by {
      assert forall i :: 0 <= i < |p| ==> p[i] != '-';
    }
    NextNumberFresh(p, stored, stamp);
  }

  lemma InvoiceNumberFresh(stored: seq<string>, stamp: string)
    requires stored == [] || exists x :: x in stored && LastTail(x).Some?
    ensures NextInvoiceNumber(stored, stamp) !in stored
  {
    var p := "PI";
    assert '-' !in p by {
      assert forall i :: 0 <= i < |p| ==> p[i] != '-';
    }
    NextNumberFresh(p, stored, stamp);
  }

  // ---------------------------------------------------------------- line ordering

  /** Each line's number is at least its predecessor's. */
  predicate SortedByLineNumber(lines: seq<PurchaseLine>)
  {
    forall i :: 0 < i < |lines| ==> lines[i - 1].lineNumber <= lines[i].lineNumber
  }

  /** `l` placed before the first line whose number is not smaller. */
  function InsertLine(l: PurchaseLine, s: seq<PurchaseLine>): (r: seq<PurchaseLine>)
    ensures multiset(r) == multiset(s) + multiset{l}
    ensures |r| == |s| + 1 && (r[0] == l || (s != [] && r[0] == s[0]))
  {
    if s == [] || l.lineNumber <= s[0].lineNumber then
      [l] + s
    else
      assert s == [s[0]] + s[1..];
      [s[0]] + InsertLine(l, s[1..])
  }

  /** Inserting into lines in order gives lines in order. */
  lemma {:induction false} InsertKeepsOrder(l: PurchaseLine, s: seq<PurchaseLine>)
    requires SortedByLineNumber(s)
    ensures SortedByLineNumber(InsertLine(l, s))
  {
    if s != [] && l.lineNumber > s[0].lineNumber {
      var t := InsertLine(l, s[1..]);
      InsertKeepsOrder(l, s[1..]);
      var r := [s[0]] + t;
      assert r == InsertLine(l, s);
      forall i | 0 < i < |r| ensures r[i - 1].lineNumber <= r[i].lineNumber {
        if i > 1 {
          assert r[i - 1] == t[i - 2] && r[i] == t[i - 1];
        } else {
          assert r[i] == t[0];
          assert t[0] == l || t[0] == s[1];
        }
      }
    }
  }

  /** `sorted(lines, key=lambda x: x.line_number)` in `_to_entity`. */
  function SortLines(lines: seq<PurchaseLine>): (r: seq<PurchaseLine>)
    ensures multiset(r) == multiset(lines)
    ensures SortedByLineNumber(r)
  {
    if lines == [] then []
    else
      assert lines == [lines[0]] + lines[1..];
      InsertKeepsOrder(lines[0], SortLines(lines[1..]));
      InsertLine(lines[0], SortLines(lines[1..]))
  }

  /** Lines already in order are loaded as they are. */
  lemma {:induction false} SortKeepsSorted(lines: seq<PurchaseLine>)
    requires SortedByLineNumber(lines)
    ensures SortLines(lines) == lines
  {
    if lines != [] {
      SortKeepsSorted(lines[1..]);
    }
  }

  /** The lines carrying line number `n`, in their order. */
  function WithNumber(s: seq<PurchaseLine>, n: int): (r: seq<PurchaseLine>)
    ensures |r| <= |s|
    ensures forall i :: 0 <= i < |r| ==> r[i].lineNumber == n
  {
    if s == [] then [] else (if s[0].lineNumber == n then [s[0]] else []) + WithNumber(s[1..], n)
  }

  /** Inserting a line leaves the lines of every other number in order and puts it first among its own. */
  lemma {:induction false} InsertWithNumber(l: PurchaseLine, s: seq<PurchaseLine>, n: int)
    ensures WithNumber(InsertLine(l, s), n) == (if l.lineNumber == n then [l] else []) + WithNumber(s, n)
  {
    if s == [] || l.lineNumber <= s[0].lineNumber {
      assert ([l] + s)[1..] == s;
    } else {
      var t := InsertLine(l, s[1..]);
      assert ([s[0]] + t)[1..] == t;
      InsertWithNumber(l, s[1..], n);
    }
  }

  /** Python's `sorted` is stable: lines with the same number keep the order they were stored in. */
  lemma {:induction false} SortStable(lines: seq<PurchaseLine>, n: int)
    ensures WithNumber(SortLines(lines), n) == WithNumber(lines, n)
  {
    if lines != [] {
      SortStable(lines[1..], n);
      InsertWithNumber(lines[0], SortLines(lines[1..]), n);
    }
  }

  /** Inserting a line adds its amount to any sum over the lines. */
  lemma {:induction false} SumOfInsert(l: PurchaseLine, s: seq<PurchaseLine>, f: PurchaseLine -> real)
    ensures SumOf(InsertLine(l, s), f) == f(l) + SumOf(s, f)
  {
    if s == [] || l.lineNumber <= s[0].lineNumber {
      assert ([l] + s)[1..] == s;
    } else {
      var t := InsertLine(l, s[1..]);
      assert ([s[0]] + t)[1..] == t;
      SumOfInsert(l, s[1..], f);
    }
  }

  /** Sorting does not change any sum over the lines. */
  lemma {:induction false} SumOfSort(lines: seq<PurchaseLine>, f: PurchaseLine -> real)
    ensures SumOf(SortLines(lines), f) == SumOf(lines, f)
  {
    if lines != [] {
      SumOfSort(lines[1..], f);
      SumOfInsert(lines[0], SortLines(lines[1..]), f);
    }
  }

  /** A loaded document has the subtotal, tax and total of the saved one. */
  lemma LoadKeepsTotals(lines: seq<PurchaseLine>)
    ensures Subtotal(SortLines(lines)) == Subtotal(lines)
    ensures TaxAmount(SortLines(lines)) == TaxAmount(lines)
    ensures TotalAmount(SortLines(lines)) == TotalAmount(lines)
  {
    SumOfSort(lines, LineSubtotal);
    SumOfSort(lines, LineTax);
  }
}
