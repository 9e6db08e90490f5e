/**
 * Payroll calculation and the employee use cases of the HR service layer.
 * The employee and payroll repositories are maps and sequences held by the
 * service objects; identifiers generated outside the service are parameters.
 */
module HrServices {
  import opened Wrappers
  import opened Money
  import opened Dates
  import SocialSecurity
  import IrpfCalculator

  /** The payroll terms of an employee record: base salary, supplements, contribution group and IRPF percentage. */
  datatype PayTerms = PayTerms(baseSalary: real, supplements: real, ssGroup: int, irpfRetention: real)

  /** An employee as the services read and write it. */
  datatype Employee = Employee(
    id: string,
    firstName: string,
    lastName: string,
    dni: string,
    email: string,
    phone: string,
    position: string,
    department: string,
    hireDate: Date,
    salary: real,
    terms: PayTerms,
    isActive: bool)

  /** Only the draft status is ever assigned. */
  datatype PayrollStatus = DRAFT

  datatype Payroll = Payroll(
    employeeId: string,
    month: int,
    year: int,
    grossSalary: real,
    baseSalary: real,
    supplements: real,
    socialSecurityEmployee: real,
    socialSecurityCompany: real,
    irpfBase: real,
    irpfRate: real,
    irpfAmount: real,
    netSalary: real,
    periodStart: Date,
    periodEnd: Date,
    workingDays: int,
    status: PayrollStatus)

  /** `_get_last_day_of_month`: the month's last date, `None` where `calendar` or `date` raise. */
  function LastDayOfMonth(month: int, year: int): (r: Option<Date>)
    ensures r.Some? <==> 1 <= month <= 12 && 1 <= year <= 9999
    ensures r.Some? ==> Valid(r.value) && r.value.year == year && r.value.month == month
    ensures r.Some? ==> r.value.day == DaysInMonth(year, month)
  {
    if 1 <= month <= 12 then MakeDate(year, month, DaysInMonth(year, month)) else None
  }

  /** The date after the last day of a month is in another month, or does not exist. */
  lemma LastDayIsLast(month: int, year: int)
    requires 1 <= month <= 12 && 1 <= year <= 9999
    ensures var d := LastDayOfMonth(month, year).value;
      NextDay(d).None? || NextDay(d).value.month != month
  {
  }

  /** The payroll of one employee for one month; `Err` for the exceptions the calculation raises. */
  function ComputePayroll(e: Employee, month: int, year: int): (r: Result<Payroll, string>)
    ensures r.Ok? <==> 1 <= e.terms.ssGroup <= 11 && 1 <= month <= 12 && 1 <= year <= 9999
    ensures r.Ok? ==> r.value.employeeId == e.id && r.value.month == month && r.value.year == year
    ensures r.Ok? ==> r.value.grossSalary == e.salary && r.value.irpfRate == e.terms.irpfRetention
  {
    var gross := e.salary;
    var (base, supplements) :=
      if e.terms.baseSalary + e.terms.supplements != gross then (gross, 0.0)
      else (e.terms.baseSalary, e.terms.supplements);
    match SocialSecurity.TotalContributions(gross, e.terms.ssGroup)
    case Err(msg) => Err(msg)
    case Ok(ss) =>
      var irpfAmount := IrpfCalculator.MonthlyRetentionAmount(gross, e.terms.irpfRetention);
      match MakeDate(year, month, 1)
      case None => Err("date out of range")
      case Some(start) =>
        match LastDayOfMonth(month, year)
        case None => Err("date out of range")
        case Some(end) =>
          Ok(Payroll(e.id, month, year, gross, base, supplements,
                     ss.workerTotal, ss.companyTotal, ss.base, e.terms.irpfRetention, irpfAmount,
                     gross - ss.workerTotal - irpfAmount, start, end, 30, DRAFT))
  }

  /**
   * What every computed payroll satisfies: base and supplements add up to
   * gross; the net salary is gross minus the worker's contribution and the
   * withheld IRPF; the IRPF base is the clamped contribution base, not gross;
   * the period is the whole month; the payroll is a 30-day draft.
   */
  lemma PayrollFacts(e: Employee, month: int, year: int)
    requires ComputePayroll(e, month, year).Ok?
    ensures var p := ComputePayroll(e, month, year).value;
      && p.baseSalary + p.supplements == p.grossSalary
      && (e.terms.baseSalary + e.terms.supplements == e.salary ==>
            p.baseSalary == e.terms.baseSalary && p.supplements == e.terms.supplements)
      && p.irpfAmount == IrpfCalculator.MonthlyRetentionAmount(e.salary, e.terms.irpfRetention)
      && p.netSalary == p.grossSalary - p.socialSecurityEmployee - p.irpfAmount
      && p.socialSecurityEmployee == SocialSecurity.WorkerContribution(e.salary, e.terms.ssGroup).value.0
      && p.socialSecurityCompany == SocialSecurity.CompanyContribution(e.salary, e.terms.ssGroup).value.0
      && p.irpfBase == SocialSecurity.ContributionBase(e.salary, e.terms.ssGroup).value
      && p.periodStart == Date(year, month, 1) && Valid(p.periodStart)
      && p.periodEnd == LastDayOfMonth(month, year).value && NotAfter(p.periodStart, p.periodEnd)
      && p.workingDays == 30 && p.status == DRAFT
  {
  }

  /** The IRPF base stays inside the group's contribution limits whatever the gross salary. */
  lemma PayrollIrpfBaseClamped(e: Employee, month: int, year: int)
    requires ComputePayroll(e, month, year).Ok?
    ensures var p := ComputePayroll(e, month, year).value;
      var g := SocialSecurity.GetGroup(e.terms.ssGroup).value;
      g.minBase <= p.irpfBase <= g.maxBase
  {
    PayrollFacts(e, month, year);
  }

  /** `PayrollService`: the employee repository it reads and the payroll repository it appends to. */
  class PayrollService {
    var employees: map<string, Employee>
    var payrolls: seq<Payroll>

    constructor (employees: map<string, Employee>)
      ensures this.employees == employees && payrolls == []
    {
      this.employees := employees;
      payrolls := [];
    }

    /** `calculate_payroll`: an unknown employee raises; a computed payroll is stored and returned. */
    method CalculatePayroll(employeeId: string, month: int, year: int) returns (r: Result<Payroll, string>)
      modifies this`payrolls
      ensures employeeId !in employees ==> r == Err("Employee not found: " + employeeId)
      ensures employeeId in employees ==> r == ComputePayroll(employees[employeeId], month, year)
      ensures payrolls == if r.Ok? then old(payrolls) + [r.value] else old(payrolls)
    {
      if employeeId !in employees {
        return Err("Employee not found: " + employeeId);
      }
      r := ComputePayroll(employees[employeeId], month, year);
      if r.Ok? {
        payrolls := payrolls + [r.value];
      }
    }
  }

  /** Some stored employee already has this DNI (`find_by_dni`). */
  predicate DniTaken(employees: map<string, Employee>, dni: string)
  {
    exists id :: id in employees && employees[id].dni == dni
  }

  /** The employee record `create_employee` builds; it starts active. */
  function NewEmployee(id: string, firstName: string, lastName: string, dni: string, email: string, phone: string,
                       position: string, department: string, hireDate: Date, salary: real, terms: PayTerms): (e: Employee)
    ensures e.id == id && e.dni == dni && e.salary == salary && e.isActive
  {
    Employee(id, firstName, lastName, dni, email, phone, position, department, hireDate, salary, terms, true)
  }

  /** The repository after `deactivate_employee`. */
  function Deactivated(employees: map<string, Employee>, id: string): (r: map<string, Employee>)
    requires id in employees
    ensures r.Keys == employees.Keys
    ensures !r[id].isActive && r[id] == employees[id].(isActive := false)
    ensures forall k :: k in employees && k != id ==> r[k] == employees[k]
  {
    employees[id := employees[id].(isActive := false)]
  }

  /** Deactivating changes nothing but the `isActive` flag of that one employee. */
  lemma DeactivatedOnlyFlag(employees: map<string, Employee>, id: string)
    requires id in employees
    ensures var e, d := employees[id], Deactivated(employees, id)[id];
      d.id == e.id && d.dni == e.dni && d.salary == e.salary && d.terms == e.terms && d.hireDate == e.hireDate
      && d.firstName == e.firstName && d.lastName == e.lastName && !d.isActive
  {
  }

  /** Deactivating twice is deactivating once. */
  lemma DeactivatedIdempotent(employees: map<string, Employee>, id: string)
    requires id in employees
    ensures Deactivated(Deactivated(employees, id), id) == Deactivated(employees, id)
  {
  }

  /** The second `EmployeeService` of the module, the one Python keeps. */
  class EmployeeService {
    var employees: map<string, Employee>

    constructor (employees: map<string, Employee>)
      ensures this.employees == employees
    {
      this.employees := employees;
    }

    /** `create_employee`: a DNI already on file raises ("Ja existeix un empleat amb el DNI …"). */
    method CreateEmployee(newId: string, firstName: string, lastName: string, dni: string, email: string, phone: string,
                          position: string, department: string, hireDate: Date, salary: real, terms: PayTerms)
      returns (r: Result<Employee, string>)
      requires newId !in employees
      modifies this
      ensures r.Err? <==> DniTaken(old(employees), dni)
      ensures r.Err? ==> employees == old(employees)
      ensures r.Ok? ==> r.value == NewEmployee(newId, firstName, lastName, dni, email, phone, position, department, hireDate, salary, terms)
      ensures r.Ok? ==> employees == old(employees)[newId := r.value]
    {
      if DniTaken(employees, dni) {
        return Err("Ja existeix un empleat amb el DNI " + dni);
      }
      var e := NewEmployee(newId, firstName, lastName, dni, email, phone, position, department, hireDate, salary, terms);
      employees := employees[newId := e];
      r := Ok(e);
    }

    /** `deactivate_employee`: an unknown id raises; otherwise only the flag changes. */
    method DeactivateEmployee(id: string) returns (r: Result<(), string>)
      modifies this
      ensures r.Ok? <==> id in old(employees)
      ensures r.Err? ==> r.error == "No s'ha trobat l'empleat amb ID " + id
      ensures employees == if r.Ok? then Deactivated(old(employees), id) else old(employees)
    {
      if id !in employees {
        return Err("No s'ha trobat l'empleat amb ID " + id);
      }
      employees := Deactivated(employees, id);
      r := Ok(());
    }

    /** `delete_employee`: an unknown id raises; otherwise that employee is removed. */
    method DeleteEmployee(id: string) returns (r: Result<(), string>)
      modifies this
      ensures r.Ok? <==> id in old(employees)
      ensures r.Err? ==> r.error == "No s'ha trobat l'empleat amb ID " + id
      ensures employees == if r.Ok? then old(employees) - {id} else old(employees)
    {
      if id !in employees {
        return Err("No s'ha trobat l'empleat amb ID " + id);
      }
      employees := employees - {id};
      r := Ok(());
    }
  }
}
