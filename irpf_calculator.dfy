/**
 * The simplified IRPF (personal income tax) withholding calculator: a
 * bracket table on the gross annual salary, reductions in percentage points
 * for dependent children and for disability, and a clamp to [0, 45].
 * Percentages and amounts are exact rationals.
 */
module IrpfCalculator {
  import opened Wrappers
  import opened Money

  /** One table row: salaries up to `limit` (no limit for the last row) withhold `rate` per cent. */
  datatype Bracket = Bracket(limit: Option<real>, rate: real)

  /** The 2024 retention table, ending with the unbounded row `float('inf')`. */
  const RetentionTable: seq<Bracket> := [
    Bracket(Some(12450.0), 0.0),
    Bracket(Some(20200.0), 19.0),
    Bracket(Some(35200.0), 24.0),
    Bracket(Some(60000.0), 30.0),
    Bracket(Some(300000.0), 37.0),
    Bracket(None, 45.0)
  ]

  /** `annual_salary <= limit`. */
  predicate Fits(b: Bracket, salary: real)
  {
    b.limit.None? || salary <= b.limit.value
  }

  /** The first row the salary fits in, `|table|` when there is none: the loop with `break`. */
  function FirstFit(table: seq<Bracket>, salary: real): (i: nat)
    ensures i <= |table|
    ensures i < |table| ==> Fits(table[i], salary)
    ensures forall j :: 0 <= j < i ==> !Fits(table[j], salary)
    decreases |table|
  {
    if table == [] then 0
    else if Fits(table[0], salary) then 0
    else 1 + FirstFit(table[1..], salary)
  }

  /** The rate of the first fitting row, 0 when no row fits. */
  function BaseRetention(table: seq<Bracket>, salary: real): real
  {
    var i := FirstFit(table, salary);
    if i < |table| then table[i].rate else 0.0
  }

  /** Rates never decrease down the table and the last row has no limit. */
  predicate Graduated(table: seq<Bracket>)
  {
    && table != []
    && table[|table| - 1].limit.None?
    && (forall i, j :: 0 <= i < j < |table| ==> table[i].rate <= table[j].rate)
  }

  lemma RetentionTableGraduated()
    ensures Graduated(RetentionTable)
    ensures forall i :: 0 <= i < |RetentionTable| ==> 0.0 <= RetentionTable[i].rate <= 45.0
  {
  }

  /** On a graduated table, a larger salary never gets a lower base rate. */
  lemma BaseRetentionMonotone(table: seq<Bracket>, s1: real, s2: real)
    requires Graduated(table) && s1 <= s2
    ensures BaseRetention(table, s1) <= BaseRetention(table, s2)
  {
    var i1, i2 := FirstFit(table, s1), FirstFit(table, s2);
    assert Fits(table[|table| - 1], s2);
    assert i2 < |table|;
    assert Fits(table[i2], s1);
  }

  /** `CHILDREN_REDUCTION`: 0, 2, 3.5, 5 points for 0 to 3 children, 6 for four or more. */
  function ChildrenReduction(children: int): (r: real)
    ensures 0.0 <= r <= 6.0
    ensures children <= 0 ==> r == 0.0
    ensures children >= 4 ==> r == 6.0
  {
    if children <= 0 then 0.0
    else if children >= 4 then 6.0
    else if children == 1 then 2.0
    else if children == 2 then 3.5
    else 5.0
  }

  /** More children never mean a smaller reduction. */
  lemma ChildrenReductionMonotone(c1: int, c2: int)
    requires c1 <= c2
    ensures ChildrenReduction(c1) <= ChildrenReduction(c2)
  {
  }

  /** `DISABILITY_REDUCTION`: 4 points from 65 per cent, 2 points from 33 per cent, else nothing. */
  function DisabilityReduction(degree: int): (r: real)
    ensures degree >= 65 ==> r == 4.0
    ensures 33 <= degree < 65 ==> r == 2.0
    ensures degree < 33 ==> r == 0.0
  {
    if degree >= 65 then 4.0 else if degree >= 33 then 2.0 else 0.0
  }

  lemma DisabilityReductionMonotone(d1: int, d2: int)
    requires d1 <= d2
    ensures DisabilityReduction(d1) <= DisabilityReduction(d2)
  {
  }

  /** Mínim 0 %, màxim 45 %. */
  function Clamp(x: real): (r: real)
    ensures 0.0 <= r <= 45.0
    ensures 0.0 <= x <= 45.0 ==> r == x
  {
    if x < 0.0 then 0.0 else if x > 45.0 then 45.0 else x
  }

  lemma ClampMonotone(x: real, y: real)
    requires x <= y
    ensures Clamp(x) <= Clamp(y)
  {
  }

  /**
   * `calculate_retention`: the withholding percentage. The marital status is
   * accepted and ignored, as in the source.
   */
  function CalculateRetention(salary: real, children: int, disability: int, marital: string): (r: real)
    ensures 0.0 <= r <= 45.0
    ensures salary <= 0.0 ==> r == 0.0
  {
    if salary <= 0.0 then 0.0
    else Clamp(BaseRetention(RetentionTable, salary) - ChildrenReduction(children) - DisabilityReduction(disability))
  }

  /** The marital status has no effect on the result. */
  lemma RetentionIgnoresMaritalStatus(salary: real, children: int, disability: int, m1: string, m2: string)
    ensures CalculateRetention(salary, children, disability, m1) == CalculateRetention(salary, children, disability, m2)
  {
  }

  /** A higher salary never lowers the percentage. */
  lemma RetentionMonotoneInSalary(s1: real, s2: real, children: int, disability: int, marital: string)
    requires s1 <= s2
    ensures CalculateRetention(s1, children, disability, marital) <= CalculateRetention(s2, children, disability, marital)
  {
    if s1 > 0.0 {
      RetentionTableGraduated();
      BaseRetentionMonotone(RetentionTable, s1, s2);
      var c, d := ChildrenReduction(children), DisabilityReduction(disability);
      ClampMonotone(BaseRetention(RetentionTable, s1) - c - d, BaseRetention(RetentionTable, s2) - c - d);
    }
  }

  /** More children never raise the percentage. */
  lemma RetentionNonIncreasingInChildren(salary: real, c1: int, c2: int, disability: int, marital: string)
    requires c1 <= c2
    ensures CalculateRetention(salary, c2, disability, marital) <= CalculateRetention(salary, c1, disability, marital)
  {
    if salary > 0.0 {
      var b, d := BaseRetention(RetentionTable, salary), DisabilityReduction(disability);
      ChildrenReductionMonotone(c1, c2);
      ClampMonotone(b - ChildrenReduction(c2) - d, b - ChildrenReduction(c1) - d);
    }
  }

  /** A higher disability degree never raises the percentage. */
  lemma RetentionNonIncreasingInDisability(salary: real, children: int, d1: int, d2: int, marital: string)
    requires d1 <= d2
    ensures CalculateRetention(salary, children, d2, marital) <= CalculateRetention(salary, children, d1, marital)
  {
    if salary > 0.0 {
      var b, c := BaseRetention(RetentionTable, salary), ChildrenReduction(children);
      DisabilityReductionMonotone(d1, d2);
      ClampMonotone(b - c - DisabilityReduction(d2), b - c - DisabilityReduction(d1));
    }
  }

  /** Without reductions, the percentage is the rate of the bracket the salary falls in. */
  lemma RetentionWithoutReductions(salary: real, marital: string, i: nat)
    requires salary > 0.0 && i < |RetentionTable| && Fits(RetentionTable[i], salary)
    requires forall j :: 0 <= j < i ==> !Fits(RetentionTable[j], salary)
    ensures CalculateRetention(salary, 0, 0, marital) == RetentionTable[i].rate
  {
    var k := FirstFit(RetentionTable, salary);
    assert k <= i;
    assert Fits(RetentionTable[k], salary);
  }

  /** `calculate_monthly_retention_amount`: the withheld amount, rounded to cents. */
  function MonthlyRetentionAmount(monthly: real, percentage: real): (r: real)
    ensures IsCents(r)
    ensures -0.005 <= r - monthly * percentage / 100.0 <= 0.005
  {
    QuantizeClose(monthly * percentage / 100.0);
    Quantize(monthly * percentage / 100.0)
  }

  /**
   * `get_net_salary`: gross minus the rounded withholding, so within half a
   * cent of the gross scaled by the share that is not withheld.
   */
  function NetSalary(gross: real, percentage: real): (r: real)
    ensures -0.005 <= r - gross * (1.0 - percentage / 100.0) <= 0.005
  {
    assert gross * (1.0 - percentage / 100.0) == gross - gross * percentage / 100.0;
    gross - MonthlyRetentionAmount(gross, percentage)
  }

  /** For a gross amount in cents and a percentage in [0, 100], the net salary is in cents and between 0 and gross. */
  lemma NetSalaryBounds(gross: real, percentage: real)
    requires IsCents(gross) && gross >= 0.0 && 0.0 <= percentage <= 100.0
    ensures IsCents(NetSalary(gross, percentage))
    ensures 0.0 <= NetSalary(gross, percentage) <= gross
  {
    PercentOfCents(gross, percentage);
    CentsAdd(gross, MonthlyRetentionAmount(gross, percentage));
  }
}
