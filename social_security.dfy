/**
 * Social Security contributions of the general regime: eleven contribution
 * groups with a minimum and maximum monthly base, the company and worker
 * percentages, the clamped contribution base and the cent-rounded
 * components of each side's contribution.
 */
module SocialSecurity {
  import opened Wrappers
  import opened Money
  import opened Text

  /** `SocialSecurityGroup`: bases and the percentages applied to the base. */
  datatype Group = Group(
    number: int,
    name: string,
    minBase: real,
    maxBase: real,
    commonCompany: real,
    commonWorker: real,
    unemploymentCompany: real,
    unemploymentWorker: real,
    trainingCompany: real,
    trainingWorker: real,
    fogasaCompany: real)

  /** A group with the dataclass's default percentages. */
  function DefaultGroup(number: int, name: string, minBase: real, maxBase: real): (g: Group)
    ensures g.number == number && g.minBase == minBase && g.maxBase == maxBase
  {
    Group(number, name, minBase, maxBase, 23.60, 4.70, 5.50, 1.55, 0.60, 0.10, 0.20)
  }

  /** The dataclass's default percentages. */
  predicate HasDefaultRates(g: Group)
  {
    && g.commonCompany == 23.60 && g.commonWorker == 4.70
    && g.unemploymentCompany == 5.50 && g.unemploymentWorker == 1.55
    && g.trainingCompany == 0.60 && g.trainingWorker == 0.10
    && g.fogasaCompany == 0.20
  }

  /** `total_company_percentage`. */
  function TotalCompanyPercentage(g: Group): real
  {
    g.commonCompany + g.unemploymentCompany + g.trainingCompany + g.fogasaCompany
  }

  /** `total_worker_percentage`. */
  function TotalWorkerPercentage(g: Group): real
  {
    g.commonWorker + g.unemploymentWorker + g.trainingWorker
  }

  /** `GROUPS`, the 2024 table. */
  const Groups: map<int, Group> := map[
    1 := DefaultGroup(1, "Enginyers i llicenciats. Personal d'alta direcció", 1629.00, 4495.50),
    2 := DefaultGroup(2, "Enginyers tècnics, perits i ajudants titulats", 1351.20, 4495.50),
    3 := DefaultGroup(3, "Caps administratius i de taller", 1174.20, 4495.50),
    4 := DefaultGroup(4, "Ajudants no titulats", 1110.00, 4495.50),
    5 := DefaultGroup(5, "Oficials administratius", 1110.00, 4495.50),
    6 := DefaultGroup(6, "Subalterns", 1110.00, 4495.50),
    7 := DefaultGroup(7, "Auxiliars administratius", 1110.00, 4495.50),
    8 := DefaultGroup(8, "Oficials de primera i segona", 1110.00, 4495.50),
    9 := DefaultGroup(9, "Oficials de tercera i especialistes", 1110.00, 4495.50),
    10 := DefaultGroup(10, "Peons", 1110.00, 4495.50),
    11 := DefaultGroup(11, "Treballadors menors de 18 anys", 1110.00, 4495.50)
  ]

  /** The table has exactly groups 1 to 11, each under its own number and with a minimum below its maximum. */
  lemma GroupsTable()
    ensures forall n :: n in Groups <==> 1 <= n <= 11
    ensures forall n :: n in Groups ==> Groups[n].number == n && 0.0 < Groups[n].minBase <= Groups[n].maxBase
    ensures forall n :: n in Groups ==> HasDefaultRates(Groups[n])
  {
  }

  /** The default rates charge the company 29.90 per cent and the worker 6.35 per cent. */
  lemma DefaultPercentages(g: Group)
    requires HasDefaultRates(g)
    ensures TotalCompanyPercentage(g) == 29.90
    ensures TotalWorkerPercentage(g) == 6.35
  {
  }

  /** `get_group`: the group, or the `ValueError` raised for a number outside the table. */
  function GetGroup(n: int): (r: Result<Group, string>)
    ensures r.Ok? <==> 1 <= n <= 11
    ensures r.Ok? ==> r.value.number == n && 0.0 < r.value.minBase <= r.value.maxBase
    ensures r.Ok? ==> HasDefaultRates(r.value)
  {
    GroupsTable();
    if n !in Groups then
      Err("Grup de cotització " + IntToString(n) + " no vàlid. Ha de ser entre 1 i 11.")
    else
      Ok(Groups[n])
  }

  /** Every group of the table charges the company 29.90 per cent and the worker 6.35 per cent. */
  lemma GroupPercentages(n: int)
    requires 1 <= n <= 11
    ensures TotalCompanyPercentage(GetGroup(n).value) == 29.90
    ensures TotalWorkerPercentage(GetGroup(n).value) == 6.35
  {
    DefaultPercentages(GetGroup(n).value);
  }

  /** The base clamped to the group's [minimum, maximum]. */
  function ClampBase(gross: real, g: Group): (b: real)
    requires g.minBase <= g.maxBase
    ensures g.minBase <= b <= g.maxBase
    ensures g.minBase <= gross <= g.maxBase ==> b == gross
    ensures gross < g.minBase ==> b == g.minBase
    ensures gross > g.maxBase ==> b == g.maxBase
  {
    if gross < g.minBase then g.minBase
    else if gross > g.maxBase then g.maxBase
    else gross
  }

  /** `calculate_contribution_base`. */
  function ContributionBase(gross: real, n: int): (r: Result<real, string>)
    ensures r.Ok? <==> GetGroup(n).Ok?
    ensures r.Ok? ==> GetGroup(n).value.minBase <= r.value <= GetGroup(n).value.maxBase
    ensures r.Ok? && GetGroup(n).value.minBase <= gross <= GetGroup(n).value.maxBase ==> r.value == gross
  {
    match GetGroup(n)
    case Err(e) => Err(e)
    case Ok(g) => Ok(ClampBase(gross, g))
  }

  /** A larger gross salary never gets a smaller contribution base. */
  lemma ContributionBaseMonotone(g1: real, g2: real, n: int)
    requires g1 <= g2 && 1 <= n <= 11
    ensures ContributionBase(g1, n).Ok? && ContributionBase(g2, n).Ok?
    ensures ContributionBase(g1, n).value <= ContributionBase(g2, n).value
  {
  }

  /** `base * rate / 100`, quantized to cents. */
  function Component(base: real, rate: real): (c: real)
    ensures IsCents(c)
    ensures -0.005 <= c - base * rate / 100.0 <= 0.005
  {
    QuantizeClose(base * rate / 100.0);
    Quantize(base * rate / 100.0)
  }

  /** The company breakdown; the dictionary's `base_cotitzacio` entry is `base`. */
  datatype CompanyBreakdown = CompanyBreakdown(base: real, common: real, unemployment: real, training: real, fogasa: real)

  /** The worker breakdown; the worker pays no FOGASA. */
  datatype WorkerBreakdown = WorkerBreakdown(base: real, common: real, unemployment: real, training: real)

  /** `calculate_company_contribution`: the total (every entry but the base) and the breakdown. */
  function CompanyContribution(gross: real, n: int): (r: Result<(real, CompanyBreakdown), string>)
    ensures r.Ok? <==> 1 <= n <= 11
    ensures r.Ok? ==> var (total, b) := r.value;
      && b.base == ContributionBase(gross, n).value
      && total == b.common + b.unemployment + b.training + b.fogasa
      && IsCents(b.common) && IsCents(b.unemployment) && IsCents(b.training) && IsCents(b.fogasa)
  {
    match GetGroup(n)
    case Err(e) => Err(e)
    case Ok(g) => Ok(CompanyOf(ClampBase(gross, g), g.commonCompany, g.unemploymentCompany, g.trainingCompany, g.fogasaCompany))
  }

  /** The company side for a base and the four company rates. */
  function CompanyOf(base: real, common: real, unemployment: real, training: real, fogasa: real): (r: (real, CompanyBreakdown))
  {
    var b := CompanyBreakdown(base, Component(base, common), Component(base, unemployment),
                              Component(base, training), Component(base, fogasa));
    (b.common + b.unemployment + b.training + b.fogasa, b)
  }

  /** `calculate_worker_contribution`: the total of the three components and the breakdown. */
  function WorkerContribution(gross: real, n: int): (r: Result<(real, WorkerBreakdown), string>)
    ensures r.Ok? <==> 1 <= n <= 11
    ensures r.Ok? ==> var (total, b) := r.value;
      && b.base == ContributionBase(gross, n).value
      && total == b.common + b.unemployment + b.training
      && IsCents(b.common) && IsCents(b.unemployment) && IsCents(b.training)
  {
    match GetGroup(n)
    case Err(e) => Err(e)
    case Ok(g) => Ok(WorkerOf(ClampBase(gross, g), g.commonWorker, g.unemploymentWorker, g.trainingWorker))
  }

  /** The worker side for a base and the three worker rates. */
  function WorkerOf(base: real, common: real, unemployment: real, training: real): (r: (real, WorkerBreakdown))
  {
    var b := WorkerBreakdown(base, Component(base, common), Component(base, unemployment), Component(base, training));
    (b.common + b.unemployment + b.training, b)
  }

  /** Four cent amounts, each within half a cent of its exact value, add up to cents within two cents of the exact sum. */
  lemma SumFour(c1: real, c2: real, c3: real, c4: real, x1: real, x2: real, x3: real, x4: real)
    requires IsCents(c1) && IsCents(c2) && IsCents(c3) && IsCents(c4)
    requires -0.005 <= c1 - x1 <= 0.005 && -0.005 <= c2 - x2 <= 0.005
    requires -0.005 <= c3 - x3 <= 0.005 && -0.005 <= c4 - x4 <= 0.005
    ensures IsCents(c1 + c2 + c3 + c4)
    ensures -0.02 <= (c1 + c2 + c3 + c4) - (x1 + x2 + x3 + x4) <= 0.02
  {
    CentsAdd(c1, c2);
    CentsAdd(c1 + c2, c3);
    CentsAdd(c1 + c2 + c3, c4);
  }

  lemma SumThree(c1: real, c2: real, c3: real, x1: real, x2: real, x3: real)
    requires IsCents(c1) && IsCents(c2) && IsCents(c3)
    requires -0.005 <= c1 - x1 <= 0.005 && -0.005 <= c2 - x2 <= 0.005 && -0.005 <= c3 - x3 <= 0.005
    ensures IsCents(c1 + c2 + c3)
    ensures -0.015 <= (c1 + c2 + c3) - (x1 + x2 + x3) <= 0.015
  {
    CentsAdd(c1, c2);
    CentsAdd(c1 + c2, c3);
  }

  lemma Distribute(base: real, r1: real, r2: real, r3: real, r4: real)
    ensures base * (r1 + r2 + r3 + r4) / 100.0 == base * r1 / 100.0 + base * r2 / 100.0 + base * r3 / 100.0 + base * r4 / 100.0
  {
  }

  lemma CompanyOfBound(base: real, r1: real, r2: real, r3: real, r4: real)
    ensures CompanyOf(base, r1, r2, r3, r4).1.base == base
    ensures IsCents(CompanyOf(base, r1, r2, r3, r4).0)
    ensures -0.02 <= CompanyOf(base, r1, r2, r3, r4).0 - base * (r1 + r2 + r3 + r4) / 100.0 <= 0.02
  {
    SumFour(Component(base, r1), Component(base, r2), Component(base, r3), Component(base, r4),
            base * r1 / 100.0, base * r2 / 100.0, base * r3 / 100.0, base * r4 / 100.0);
    Distribute(base, r1, r2, r3, r4);
  }

  lemma WorkerOfBound(base: real, r1: real, r2: real, r3: real)
    ensures WorkerOf(base, r1, r2, r3).1.base == base
    ensures IsCents(WorkerOf(base, r1, r2, r3).0)
    ensures -0.015 <= WorkerOf(base, r1, r2, r3).0 - base * (r1 + r2 + r3) / 100.0 <= 0.015
  {
    SumThree(Component(base, r1), Component(base, r2), Component(base, r3),
             base * r1 / 100.0, base * r2 / 100.0, base * r3 / 100.0);
    Distribute(base, r1, r2, r3, 0.0);
  }

  /** The company total is a whole number of cents within two cents of 29.90 per cent of the base. */
  lemma CompanyTotalBound(gross: real, n: int)
    requires 1 <= n <= 11
    ensures var (c, b) := CompanyContribution(gross, n).value;
      IsCents(c) && -0.02 <= c - b.base * 29.90 / 100.0 <= 0.02
  {
    var g := GetGroup(n).value;
    var base := ClampBase(gross, g);
    assert CompanyContribution(gross, n).value == CompanyOf(base, 23.60, 5.50, 0.60, 0.20);
    CompanyOfBound(base, 23.60, 5.50, 0.60, 0.20);
  }

  /** The worker total is a whole number of cents within 1.5 cents of 6.35 per cent of the base. */
  lemma WorkerTotalBound(gross: real, n: int)
    requires 1 <= n <= 11
    ensures var (w, b) := WorkerContribution(gross, n).value;
      IsCents(w) && -0.015 <= w - b.base * 6.35 / 100.0 <= 0.015
  {
    var g := GetGroup(n).value;
    var base := ClampBase(gross, g);
    assert WorkerContribution(gross, n).value == WorkerOf(base, 4.70, 1.55, 0.10);
    WorkerOfBound(base, 4.70, 1.55, 0.10);
  }

  /** `calculate_total_contributions`. */
  datatype Totals = Totals(
    base: real,
    companyTotal: real,
    company: CompanyBreakdown,
    workerTotal: real,
    worker: WorkerBreakdown,
    totalGeneral: real)

  function TotalContributions(gross: real, n: int): (r: Result<Totals, string>)
    ensures r.Ok? <==> 1 <= n <= 11
    ensures r.Ok? ==>
      && r.value.base == ContributionBase(gross, n).value
      && r.value.companyTotal == CompanyContribution(gross, n).value.0
      && r.value.workerTotal == WorkerContribution(gross, n).value.0
      && r.value.totalGeneral == r.value.companyTotal + r.value.workerTotal
  {
    match CompanyContribution(gross, n)
    case Err(e) => Err(e)
    case Ok((ct, cb)) =>
      match WorkerContribution(gross, n)
      case Err(e) => Err(e)
      case Ok((wt, wb)) =>
        Ok(Totals(cb.base, ct, cb, wt, wb, ct + wt))
  }
}
