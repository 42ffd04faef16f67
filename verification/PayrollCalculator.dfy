/** The salary calculation of the API (decimal arithmetic, configurable ceilings) and its
    second implementation in the worker (plain numbers, fixed ceilings). Amounts are in
    paise: what comes in may have fractions of a paisa, what is rounded is whole. */
module PayrollCalculator {
  import opened Rounding
  import opened Slabs

  datatype Settings = Settings(
    pfWageCeiling: real,
    esicWageCeiling: real,
    overtimeMultiplier: real,
    workingHoursPerDay: real)

  /** What the API falls back to, and what the worker has built in. */
  const DEFAULTS := Settings(1500000.0, 2100000.0, 2.0, 8.0)

  /** A missing bonus or deduction is 0. Half days make `presentDays` fractional. */
  datatype Input = Input(
    basicSalary: real,
    hra: real,
    allowances: real,
    workingDays: real,
    presentDays: real,
    leaveDays: real,
    overtimeHours: real,
    pfEnabled: bool,
    esicEnabled: bool,
    tdsEnabled: bool,
    bonus: real,
    otherDeductions: real)

  datatype Earnings = Earnings(basic: int, hra: int, allowances: int, overtimePay: int)

  datatype Deductions = Deductions(
    pfEmployee: int, pfEmployer: int, esicEmployee: int, esicEmployer: int, tds: int, total: int)

  datatype Payslip = Payslip(
    payableDays: real,
    absentDays: real,
    earnings: Earnings,
    grossSalary: int,
    deductions: Deductions,
    netSalary: int)

  // ----- The calculation as functions -----

  function Ratio(i: Input): real {
    if i.workingDays > 0.0 then (i.presentDays + i.leaveDays) / i.workingDays else 0.0
  }

  function Prorated(amount: real, ratio: real): int {
    HalfUp(amount * ratio)
  }

  function PerHour(s: Settings, i: Input): real
    requires s.workingHoursPerDay != 0.0
  {
    i.basicSalary / 26.0 / s.workingHoursPerDay
  }

  function OvertimePay(perHour: real, hours: real, multiplier: real): int {
    HalfUp(perHour * hours * multiplier)
  }

  function EarningsOf(s: Settings, i: Input): Earnings
    requires s.workingHoursPerDay != 0.0
  {
    Earnings(
      Prorated(i.basicSalary, Ratio(i)),
      Prorated(i.hra, Ratio(i)),
      Prorated(i.allowances, Ratio(i)),
      OvertimePay(PerHour(s, i), i.overtimeHours, s.overtimeMultiplier))
  }

  function GrossOf(e: Earnings, bonus: real): int {
    HalfUp((e.basic + e.hra + e.allowances + e.overtimePay) as real + bonus)
  }

  function PfWage(s: Settings, i: Input): real {
    if i.pfEnabled then Min(i.basicSalary, s.pfWageCeiling) else 0.0
  }

  /** Either share of the ESIC contribution: none above the ceiling. */
  function Esic(enabled: bool, ceiling: real, gross: int, rate: real): int {
    if enabled && gross as real <= ceiling then HalfUp(gross as real * rate) else 0
  }

  /** The API rounds the annual tax before it takes a twelfth and rounds again. */
  function ApiTds(enabled: bool, gross: int): int {
    if enabled then HalfUp(HalfUp(AnnualTax(gross as real * 12.0)) as real / 12.0) else 0
  }

  /** The worker takes a twelfth of the unrounded annual tax. */
  function WorkerTds(enabled: bool, gross: int): int {
    if enabled then HalfUp(AnnualTax(gross as real * 12.0) / 12.0) else 0
  }

  function DeductionsOf(s: Settings, i: Input, gross: int, tds: int): Deductions {
    var pf := HalfUp(PfWage(s, i) * 0.12);
    var esic := Esic(i.esicEnabled, s.esicWageCeiling, gross, 0.0075);
    Deductions(
      pf,
      HalfUp(PfWage(s, i) * 0.13),
      esic,
      Esic(i.esicEnabled, s.esicWageCeiling, gross, 0.0325),
      tds,
      HalfUp((pf + esic + tds) as real + i.otherDeductions))
  }

  function SlipOf(s: Settings, i: Input, tds: int): Payslip
    requires s.workingHoursPerDay != 0.0
  {
    var payable := i.presentDays + i.leaveDays;
    var e := EarningsOf(s, i);
    var gross := GrossOf(e, i.bonus);
    var d := DeductionsOf(s, i, gross, tds);
    Payslip(payable, Max(i.workingDays - payable, 0.0), e, gross, d, gross - d.total)
  }

  function GrossFor(s: Settings, i: Input): int
    requires s.workingHoursPerDay != 0.0
  {
    GrossOf(EarningsOf(s, i), i.bonus)
  }

  function ApiPayslip(s: Settings, i: Input): Payslip
    requires s.workingHoursPerDay != 0.0
  {
    SlipOf(s, i, ApiTds(i.tdsEnabled, GrossFor(s, i)))
  }

  function WorkerPayslip(i: Input): Payslip {
    SlipOf(DEFAULTS, i, WorkerTds(i.tdsEnabled, GrossFor(DEFAULTS, i)))
  }

  // ----- The two implementations -----

  method CalculateTds(annualIncome: real) returns (tax: int)
    ensures tax == HalfUp(AnnualTax(annualIncome))
  {
    var exact, _, _ := SlabTax(annualIncome);
    tax := HalfUp(exact);
  }

  /** Prorating, overtime and gross pay: the same steps in both implementations. */
  method CalculateEarnings(s: Settings, i: Input) returns (e: Earnings, gross: int)
    requires s.workingHoursPerDay != 0.0
    ensures e == EarningsOf(s, i) && gross == GrossFor(s, i)
  {
    var ratio := if i.workingDays > 0.0 then (i.presentDays + i.leaveDays) / i.workingDays else 0.0;
    var basic := Prorate(i.basicSalary, ratio);
    var hra := Prorate(i.hra, ratio);
    var allowances := Prorate(i.allowances, ratio);
    var overtimePay := PayOvertime(i.basicSalary, s.workingHoursPerDay, i.overtimeHours, s.overtimeMultiplier);
    e := Earnings(basic, hra, allowances, overtimePay);
    gross := HalfUp((basic + hra + allowances + overtimePay) as real + i.bonus);
  }

  method Prorate(amount: real, ratio: real) returns (part: int)
    ensures part == Prorated(amount, ratio)
  {
    part := HalfUp(amount * ratio);
  }

  method PayOvertime(basic: real, hoursPerDay: real, hours: real, multiplier: real) returns (pay: int)
    requires hoursPerDay != 0.0
    ensures pay == OvertimePay(basic / 26.0 / hoursPerDay, hours, multiplier)
  {
    var perDay := basic / 26.0;
    var perHour := perDay / hoursPerDay;
    pay := HalfUp(perHour * hours * multiplier);
  }

  /** PF and ESIC, each under its ceiling, and the sum of all deductions. */
  method CalculateDeductions(s: Settings, i: Input, gross: int, tds: int) returns (d: Deductions)
    ensures d == DeductionsOf(s, i, gross, tds)
  {
    var pfEmployee, pfEmployer := 0, 0;
    if i.pfEnabled {
      var pfWage := Min(i.basicSalary, s.pfWageCeiling);
      pfEmployee := HalfUp(pfWage * 0.12);
      pfEmployer := HalfUp(pfWage * 0.13);
    }
    var esicEmployee, esicEmployer := 0, 0;
    if i.esicEnabled && gross as real <= s.esicWageCeiling {
      esicEmployee := HalfUp(gross as real * 0.0075);
      esicEmployer := HalfUp(gross as real * 0.0325);
    }
    var total := HalfUp((pfEmployee + esicEmployee + tds) as real + i.otherDeductions);
    d := Deductions(pfEmployee, pfEmployer, esicEmployee, esicEmployer, tds, total);
  }

  /** The API's `calculate`. */
  method Calculate(s: Settings, i: Input) returns (slip: Payslip)
    requires s.workingHoursPerDay != 0.0
    ensures slip == ApiPayslip(s, i)
    ensures slip.netSalary == slip.grossSalary - slip.deductions.total
  {
    var earnings, gross := CalculateEarnings(s, i);
    var tds := 0;
    if i.tdsEnabled {
      var annualTax := CalculateTds(gross as real * 12.0);
      tds := HalfUp(annualTax as real / 12.0);
    }
    var d := CalculateDeductions(s, i, gross, tds);
    var net := HalfUp((gross - d.total) as real);
    HalfUpWhole(gross - d.total);
    var payable := i.presentDays + i.leaveDays;
    slip := Payslip(payable, Max(i.workingDays - payable, 0.0), earnings, gross, d, net);
  }

  /** The worker's `calculatePayroll`. */
  method CalculatePayroll(i: Input) returns (slip: Payslip)
    ensures slip == WorkerPayslip(i)
  {
    var earnings, gross := CalculateEarnings(DEFAULTS, i);
    var tds := 0;
    if i.tdsEnabled {
      var tax, _, _ := SlabTax(gross as real * 12.0);
      tds := HalfUp(tax / 12.0);
    }
    var d := CalculateDeductions(DEFAULTS, i, gross, tds);
    var net := HalfUp((gross - d.total) as real);
    HalfUpWhole(gross - d.total);
    var payable := i.presentDays + i.leaveDays;
    slip := Payslip(payable, Max(i.workingDays - payable, 0.0), earnings, gross, d, net);
  }

  // ----- The payslip in the figures it is made from -----

  lemma {:induction false} Quotient(q: real, a: real, b: real)
    requires b != 0.0 && q * b == a
    ensures a / b == q
  {}

  lemma {:induction false} HourlyRate(basic: real, hoursPerDay: real, hours: real, multiplier: real)
    requires hoursPerDay != 0.0
    ensures basic / 26.0 / hoursPerDay * hours * multiplier == basic * hours * multiplier / (26.0 * hoursPerDay)
  {
    var perHour := basic / 26.0 / hoursPerDay;
    assert perHour * hoursPerDay == basic / 26.0;
    var pay := perHour * hours * multiplier;
    assert pay * (26.0 * hoursPerDay) == 26.0 * (perHour * hoursPerDay) * hours * multiplier;
    Quotient(pay, basic * hours * multiplier, 26.0 * hoursPerDay);
  }

  lemma {:induction false} OvertimePaid(s: Settings, i: Input, month: real, pay: int)
    requires s.workingHoursPerDay != 0.0 && month == 26.0 * s.workingHoursPerDay
    requires pay == OvertimePay(PerHour(s, i), i.overtimeHours, s.overtimeMultiplier)
    ensures pay == HalfUp(i.basicSalary * i.overtimeHours * s.overtimeMultiplier / month)
  {
    HourlyRate(i.basicSalary, s.workingHoursPerDay, i.overtimeHours, s.overtimeMultiplier);
  }

  lemma {:induction false} SameEarnings(i: Input)
    ensures WorkerPayslip(i).earnings == ApiPayslip(DEFAULTS, i).earnings
  {}

  /** Overtime is paid at the multiple of the hourly share of the basic salary, to the paisa; a
      month has 26 days of so many hours. */
  lemma {:induction false} OvertimeInFigures(s: Settings, i: Input, month: real)
    requires s.workingHoursPerDay != 0.0 && month == 26.0 * s.workingHoursPerDay
    ensures ApiPayslip(s, i).earnings.overtimePay ==
            HalfUp(i.basicSalary * i.overtimeHours * s.overtimeMultiplier / month)
  {
    ComponentsAreProrated(s, i, ApiPayslip(s, i).earnings);
    OvertimePaid(s, i, month, ApiPayslip(s, i).earnings.overtimePay);
  }

  /** The worker always pays it double, for months of 208 hours. */
  lemma {:induction false} WorkerOvertimeInFigures(i: Input)
    ensures WorkerPayslip(i).earnings.overtimePay == HalfUp(i.basicSalary * i.overtimeHours * 2.0 / 208.0)
  {
    SameEarnings(i);
    OvertimeInFigures(DEFAULTS, i, 208.0);
  }

  lemma {:induction false} Twice(basic: real, hours: real)
    requires hours == 208.0
    ensures basic * hours * 2.0 / 208.0 == 2.0 * basic
  {}

  /** 26 days of 8 hours overtime pay twice the basic salary. */
  lemma {:induction false} OvertimeOfAMonth(i: Input)
    requires i.overtimeHours == 208.0
    ensures ApiPayslip(DEFAULTS, i).earnings.overtimePay == HalfUp(2.0 * i.basicSalary)
    ensures WorkerPayslip(i).earnings.overtimePay == HalfUp(2.0 * i.basicSalary)
  {
    SameEarnings(i);
    WorkerOvertimeInFigures(i);
    Twice(i.basicSalary, i.overtimeHours);
  }

  lemma {:induction false} Share(amount: real, days: real, workingDays: real)
    requires workingDays != 0.0
    ensures Prorated(amount, days / workingDays) == HalfUp(amount * days / workingDays)
  {
    var q := days / workingDays;
    assert q * workingDays == days;
    assert amount * q * workingDays == amount * (q * workingDays);
    Quotient(amount * q, amount * days, workingDays);
  }

  lemma {:induction false} FullShare(amount: real, days: real)
    requires days != 0.0
    ensures Prorated(amount, days / days) == HalfUp(amount)
  {
    Quotient(1.0, days, days);
  }

  lemma {:induction false} NoShare(amount: real)
    ensures Prorated(amount, 0.0) == 0
  {
    HalfUpWhole(0);
  }

  /** So many days' worth of an amount, to the paisa. */
  ghost predicate PaidFor(part: int, amount: real, days: real, workingDays: real)
    requires workingDays > 0.0
  {
    part == HalfUp(amount * days / workingDays)
  }

  lemma {:induction false} PaidForShare(amount: real, ratio: real, days: real, workingDays: real)
    requires workingDays > 0.0 && ratio == days / workingDays
    ensures PaidFor(Prorated(amount, ratio), amount, days, workingDays)
  {
    Share(amount, days, workingDays);
  }

  lemma {:induction false} ComponentPaid(i: Input, amount: real, part: int)
    requires i.workingDays > 0.0 && part == Prorated(amount, Ratio(i))
    ensures PaidFor(part, amount, i.presentDays + i.leaveDays, i.workingDays)
  {
    PaidForShare(amount, Ratio(i), i.presentDays + i.leaveDays, i.workingDays);
  }

  lemma {:induction false} ComponentsAreProrated(s: Settings, i: Input, e: Earnings)
    requires s.workingHoursPerDay != 0.0 && e == ApiPayslip(s, i).earnings
    ensures e.basic == Prorated(i.basicSalary, Ratio(i)) && e.hra == Prorated(i.hra, Ratio(i))
    ensures e.allowances == Prorated(i.allowances, Ratio(i))
    ensures e.overtimePay == OvertimePay(PerHour(s, i), i.overtimeHours, s.overtimeMultiplier)
  {}

  /** A component is paid for the days present or on leave, out of the working days. */
  lemma {:induction false} ComponentsInFigures(s: Settings, i: Input, e: Earnings)
    requires s.workingHoursPerDay != 0.0 && i.workingDays > 0.0
    requires e == ApiPayslip(s, i).earnings || e == WorkerPayslip(i).earnings
    ensures PaidFor(e.basic, i.basicSalary, i.presentDays + i.leaveDays, i.workingDays)
    ensures PaidFor(e.hra, i.hra, i.presentDays + i.leaveDays, i.workingDays)
    ensures PaidFor(e.allowances, i.allowances, i.presentDays + i.leaveDays, i.workingDays)
  {
    SameEarnings(i);
    ComponentsAreProrated(if e == ApiPayslip(s, i).earnings then s else DEFAULTS, i, e);
    ComponentPaid(i, i.basicSalary, e.basic);
    ComponentPaid(i, i.hra, e.hra);
    ComponentPaid(i, i.allowances, e.allowances);
  }

  /** Who is there or on leave on every working day gets the full salary; without a working day
      there is none. */
  lemma {:induction false} FullMonth(s: Settings, i: Input)
    requires s.workingHoursPerDay != 0.0
    requires i.presentDays + i.leaveDays == i.workingDays > 0.0 || i.workingDays <= 0.0
    ensures var e := ApiPayslip(s, i).earnings;
            if i.workingDays > 0.0
            then e.basic == HalfUp(i.basicSalary) && e.hra == HalfUp(i.hra) && e.allowances == HalfUp(i.allowances)
            else e.basic == e.hra == e.allowances == 0
  {
    if i.workingDays > 0.0 {
      FullShare(i.basicSalary, i.workingDays);
      FullShare(i.hra, i.workingDays);
      FullShare(i.allowances, i.workingDays);
    } else {
      NoShare(i.basicSalary);
      NoShare(i.hra);
      NoShare(i.allowances);
    }
  }

  /** Of a payslip of either implementation: pay is added up with the bonus; PF is 12% and 13% of
      the basic salary up to its ceiling, ESIC 0.75% and 3.25% of gross pay if that is within its
      ceiling, each only for who is enrolled; and deductions are added up. */
  ghost predicate InFigures(p: Payslip, i: Input, pfCeiling: real, esicCeiling: real) {
    && p.payableDays == i.presentDays + i.leaveDays
    && p.absentDays == (if i.workingDays > p.payableDays then i.workingDays - p.payableDays else 0.0)
    && p.grossSalary == HalfUp((p.earnings.basic + p.earnings.hra + p.earnings.allowances
                                + p.earnings.overtimePay) as real + i.bonus)
    && (!i.pfEnabled ==> p.deductions.pfEmployee == p.deductions.pfEmployer == 0)
    && (i.pfEnabled && i.basicSalary <= pfCeiling ==>
          p.deductions.pfEmployee == HalfUp(i.basicSalary * 12.0 / 100.0)
          && p.deductions.pfEmployer == HalfUp(i.basicSalary * 13.0 / 100.0))
    && (i.pfEnabled && i.basicSalary >= pfCeiling ==>
          p.deductions.pfEmployee == HalfUp(pfCeiling * 12.0 / 100.0)
          && p.deductions.pfEmployer == HalfUp(pfCeiling * 13.0 / 100.0))
    && (!i.esicEnabled || p.grossSalary as real > esicCeiling ==>
          p.deductions.esicEmployee == p.deductions.esicEmployer == 0)
    && (i.esicEnabled && p.grossSalary as real <= esicCeiling ==>
          p.deductions.esicEmployee == HalfUp(p.grossSalary as real * 75.0 / 10000.0)
          && p.deductions.esicEmployer == HalfUp(p.grossSalary as real * 325.0 / 10000.0))
    && p.deductions.total == HalfUp((p.deductions.pfEmployee + p.deductions.esicEmployee
                                     + p.deductions.tds) as real + i.otherDeductions)
    && p.netSalary == p.grossSalary - p.deductions.total
  }

  lemma {:induction false} SlipInFigures(s: Settings, i: Input, tds: int)
    requires s.workingHoursPerDay != 0.0
    ensures InFigures(SlipOf(s, i, tds), i, s.pfWageCeiling, s.esicWageCeiling)
  {
    HalfUpWhole(0);
  }

  /** TDS is a twelfth of the tax on twelve times the gross pay. */
  lemma {:induction false} PayslipsInFigures(s: Settings, i: Input)
    requires s.workingHoursPerDay != 0.0
    ensures InFigures(ApiPayslip(s, i), i, s.pfWageCeiling, s.esicWageCeiling)
    ensures InFigures(WorkerPayslip(i), i, 1500000.0, 2100000.0)
    ensures var a, w := ApiPayslip(s, i), WorkerPayslip(i);
            && (!i.tdsEnabled ==> a.deductions.tds == w.deductions.tds == 0)
            && (i.tdsEnabled ==>
                  a.deductions.tds == HalfUp(HalfUp(AnnualTax(a.grossSalary as real * 12.0)) as real / 12.0)
                  && w.deductions.tds == HalfUp(AnnualTax(w.grossSalary as real * 12.0) / 12.0))
  {
    SlipInFigures(s, i, ApiTds(i.tdsEnabled, GrossFor(s, i)));
    SlipInFigures(DEFAULTS, i, WorkerTds(i.tdsEnabled, GrossFor(DEFAULTS, i)));
  }

  // ----- How close the two implementations stay -----

  /** The months whose tax is a fraction of a paisa short of rounding up: there the API's
      first rounding carries the twelfth over the half. */
  ghost predicate TwelfthJustBelowHalf(gross: int) {
    var twelfth := AnnualTax(gross as real * 12.0) / 12.0;
    twelfth.Floor as real + 11.0 / 24.0 <= twelfth < twelfth.Floor as real + 0.5
  }

  lemma {:induction false} RoundingTwice(tax: real)
    requires 0.0 <= tax
    ensures var twelfth := tax / 12.0;
            HalfUp(HalfUp(tax) as real / 12.0) ==
            HalfUp(twelfth) +
            if twelfth.Floor as real + 11.0 / 24.0 <= twelfth < twelfth.Floor as real + 0.5 then 1 else 0
  {
    var m := (tax / 12.0).Floor;
    var rest := tax - 12.0 * m as real;
    var n := (rest + 0.5).Floor;
    TwelveMonths(tax, m, n, rest);
    if n < 6 {
      assert (m as real + n as real / 12.0 + 0.5).Floor == m;
    } else {
      assert (m as real + n as real / 12.0 + 0.5).Floor == m + 1;
    }
  }

  lemma {:induction false} TwelveMonths(tax: real, m: int, n: int, rest: real)
    requires 0.0 <= tax && m == (tax / 12.0).Floor && rest == tax - 12.0 * m as real && n == (rest + 0.5).Floor
    ensures 0.0 <= rest < 12.0 && 0 <= n <= 12 && 0 <= m
    ensures HalfUp(tax) == 12 * m + n
    ensures HalfUp(tax) as real / 12.0 == m as real + n as real / 12.0
  {
    var k := 12 * m;
    assert k as real == 12.0 * m as real;
    assert tax + 0.5 == k as real + (rest + 0.5);
    assert (tax + 0.5).Floor == k + n;
  }

  /** Both implementations take the same TDS, or the API exactly one paisa more. */
  lemma {:induction false} TdsAgrees(enabled: bool, gross: int)
    ensures ApiTds(enabled, gross) ==
            WorkerTds(enabled, gross) + if enabled && TwelfthJustBelowHalf(gross) then 1 else 0
    ensures WorkerTds(enabled, gross) >= 0
  {
    AnnualTaxExpanded(gross as real * 12.0);
    RoundingTwice(AnnualTax(gross as real * 12.0));
  }

  /** The TDS enters nothing but its own line and the totals, and lowers net pay by itself. */
  lemma {:induction false} TdsInTotals(s: Settings, i: Input, gross: int, t: nat, u: nat)
    requires i.otherDeductions >= 0.0 && i.basicSalary >= 0.0 && gross >= 0 && s.pfWageCeiling >= 0.0
    ensures DeductionsOf(s, i, gross, t).total - DeductionsOf(s, i, gross, u).total == t - u
  {
    var d := DeductionsOf(s, i, gross, t);
    HalfUpMonotone(0.0, PfWage(s, i) * 0.12);
    HalfUpMonotone(0.0, gross as real * 0.0075);
    HalfUpShift(d.pfEmployee + d.esicEmployee + t, i.otherDeductions);
    HalfUpShift(d.pfEmployee + d.esicEmployee + u, i.otherDeductions);
  }

  lemma {:induction false} SlipsDiffer(s: Settings, i: Input, t: nat, u: nat)
    requires s.workingHoursPerDay != 0.0 && s.pfWageCeiling >= 0.0
    ensures var a, w := SlipOf(s, i, t), SlipOf(s, i, u);
            && a.(deductions := w.deductions, netSalary := w.netSalary) == w
            && a.deductions.(tds := u, total := w.deductions.total) == w.deductions
            && (i.otherDeductions >= 0.0 && i.basicSalary >= 0.0 && w.grossSalary >= 0 ==>
                  a.netSalary - w.netSalary == u - t)
  {
    if i.otherDeductions >= 0.0 && i.basicSalary >= 0.0 && GrossFor(s, i) >= 0 {
      TdsInTotals(s, i, GrossFor(s, i), t, u);
    }
  }

  /** On the same input the two implementations agree on every earning, on gross pay and on
      both PF and ESIC shares. The API's monthly TDS is the worker's, or exactly one paisa
      more, and the lemma says exactly when; net pay differs by that paisa. */
  lemma {:induction false} ImplementationsAgree(i: Input)
    ensures var a, w := ApiPayslip(DEFAULTS, i), WorkerPayslip(i);
            && a.(deductions := w.deductions, netSalary := w.netSalary) == w
            && a.deductions.(tds := w.deductions.tds, total := w.deductions.total) == w.deductions
            && a.deductions.tds ==
               w.deductions.tds + (if i.tdsEnabled && TwelfthJustBelowHalf(w.grossSalary) then 1 else 0)
            && (a.deductions.tds == w.deductions.tds ==> a == w)
            && (i.otherDeductions >= 0.0 && i.basicSalary >= 0.0 && w.grossSalary >= 0 ==>
                  a.netSalary - w.netSalary == w.deductions.tds - a.deductions.tds)
  {
    var gross := GrossFor(DEFAULTS, i);
    TdsAgrees(i.tdsEnabled, gross);
    SlipsDiffer(DEFAULTS, i, ApiTds(i.tdsEnabled, gross), WorkerTds(i.tdsEnabled, gross));
  }

  /** Ten times the annual tax on a whole number of paise a month is a whole number. */
  function TenfoldTax(gross: int): nat {
    if gross <= 2500000 then 0
    else if gross * 12 <= 70000000 then 6 * gross - 15000000
    else if gross * 12 <= 100000000 then 12 * gross - 50000000
    else if gross * 12 <= 120000000 then 18 * gross - 100000000
    else if gross * 12 <= 150000000 then 24 * gross - 160000000
    else 36 * gross - 310000000
  }

  lemma {:induction false} TenfoldTaxIsTax(gross: int)
    ensures AnnualTax(gross as real * 12.0) * 10.0 == TenfoldTax(gross) as real
  {
    AnnualTaxExpanded(gross as real * 12.0);
  }

  /** The floor of a fraction is the integer quotient. */
  lemma {:induction false} FloorOfFraction(n: int, d: int)
    requires d > 0
    ensures (n as real / d as real).Floor == n / d
  {
    var q := n / d;
    assert n == q * d + n % d;
    assert q as real * d as real == (q * d) as real;
    assert n as real / d as real == q as real + (n % d) as real / d as real;
    assert 0.0 <= (n % d) as real / d as real < 1.0;
  }

  /** The extra paisa first occurs at a gross pay of Rs 83,333.52 a month; below that the
      two implementations return the same payslip. */
  lemma {:induction false} FirstExtraPaisa(gross: int)
    requires gross <= 8333352
    ensures TwelfthJustBelowHalf(gross) <==> gross == 8333352
  {
    TenfoldTaxIsTax(gross);
    var t := TenfoldTax(gross);
    FloorOfFraction(t, 120);
    var twelfth := AnnualTax(gross as real * 12.0) / 12.0;
    assert twelfth == t as real / 120.0;
    var m := t / 120;
    assert twelfth.Floor == m;
    assert TwelfthJustBelowHalf(gross) <==> 120 * m + 55 <= t < 120 * m + 60;
  }
}
