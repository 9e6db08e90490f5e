/**
 * Python `datetime.date` as the ERP uses it: construction from
 * (year, month, day), comparison, `date + timedelta(days=k)` and
 * `calendar.monthrange(year, month)[1]`. Python raises `ValueError` for an
 * impossible date and `OverflowError` for a result outside years 1..9999;
 * both are `None` here.
 */
module Dates {
  import opened Wrappers

  datatype Date = Date(year: int, month: int, day: int)

  predicate IsLeap(y: int) { y % 4 == 0 && (y % 100 != 0 || y % 400 == 0) }

  /** `calendar.monthrange(y, m)[1]`: the number of days of month `m`. */
  function DaysInMonth(y: int, m: int): (n: int)
    requires 1 <= m <= 12
    ensures 28 <= n <= 31
    ensures m == 2 ==> (n == 29 <==> IsLeap(y))
  {
    if m == 2 then (if IsLeap(y) then 29 else 28)
    else if m == 4 || m == 6 || m == 9 || m == 11 then 30
    else 31
  }

  predicate Valid(d: Date)
  {
    1 <= d.year <= 9999 && 1 <= d.month <= 12 && 1 <= d.day <= DaysInMonth(d.year, d.month)
  }

  /** `date(y, m, d)`: `None` where Python raises `ValueError`. */
  function MakeDate(y: int, m: int, d: int): (r: Option<Date>)
    ensures r.Some? <==> 1 <= y <= 9999 && 1 <= m <= 12 && 1 <= d <= DaysInMonth(y, m)
    ensures r.Some? ==> Valid(r.value) && r.value == Date(y, m, d)
  {
    if 1 <= y <= 9999 && 1 <= m <= 12 && 1 <= d <= DaysInMonth(y, m) then Some(Date(y, m, d)) else None
  }

  /** `a < b` on dates. */
  predicate Before(a: Date, b: Date)
  {
    a.year < b.year || (a.year == b.year && (a.month < b.month || (a.month == b.month && a.day < b.day)))
  }

  /** `a <= b` on dates. */
  predicate NotAfter(a: Date, b: Date) { Before(a, b) || a == b }

  lemma BeforeTransitive(a: Date, b: Date, c: Date)
    requires Before(a, b) && Before(b, c)
    ensures Before(a, c)
  {
  }

  /** Dates compare like (year, month, day) triples: exactly one of `a < b`, `a == b`, `b < a`. */
  lemma BeforeTotal(a: Date, b: Date)
    ensures Before(a, b) || a == b || Before(b, a)
    ensures !(Before(a, b) && Before(b, a)) && !Before(a, a)
  {
  }

  lemma NotAfterTransitive(a: Date, b: Date, c: Date)
    requires NotAfter(a, b) && NotAfter(b, c)
    ensures NotAfter(a, c)
  {
  }

  /** The following day, `None` after 9999-12-31. */
  function NextDay(d: Date): (r: Option<Date>)
    requires Valid(d)
    ensures r.Some? ==> Valid(r.value) && Before(d, r.value)
    ensures r.None? <==> d == Date(9999, 12, 31)
  {
    if d.day < DaysInMonth(d.year, d.month) then Some(d.(day := d.day + 1))
    else if d.month < 12 then Some(Date(d.year, d.month + 1, 1))
    else if d.year < 9999 then Some(Date(d.year + 1, 1, 1))
    else None
  }

  /** The preceding day, `None` before 0001-01-01. */
  function PrevDay(d: Date): (r: Option<Date>)
    requires Valid(d)
    ensures r.Some? ==> Valid(r.value) && Before(r.value, d)
    ensures r.None? <==> d == Date(1, 1, 1)
  {
    if d.day > 1 then Some(d.(day := d.day - 1))
    else if d.month > 1 then Some(Date(d.year, d.month - 1, DaysInMonth(d.year, d.month - 1)))
    else if d.year > 1 then Some(Date(d.year - 1, 12, 31))
    else None
  }

  /** `d + timedelta(days=k)`: `None` where Python raises `OverflowError`. */
  function AddDays(d: Date, k: int): (r: Option<Date>)
    requires Valid(d)
    ensures r.Some? ==> Valid(r.value)
    ensures r.Some? && k > 0 ==> Before(d, r.value)
    ensures r.Some? && k < 0 ==> Before(r.value, d)
    ensures k == 0 ==> r == Some(d)
    decreases if k < 0 then -k else k
  {
    if k == 0 then Some(d)
    else if k > 0 then
      match NextDay(d)
      case None => None
      case Some(e) =>
        AddDays(e, k - 1)
    else
      match PrevDay(d)
      case None => None
      case Some(e) =>
        AddDays(e, k + 1)
  }

  /** Adding a non-negative number of days never gives an earlier date, and a negative one always does. */
  lemma AddDaysOrder(d: Date, k: int, e: Date)
    requires Valid(d) && AddDays(d, k) == Some(e)
    ensures Before(e, d) <==> k < 0
  {
    if k > 0 {
      assert Before(d, e);
    }
  }
}
