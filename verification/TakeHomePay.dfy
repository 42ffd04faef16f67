/** Earning more never lowers take-home pay: how the rounding, the tax slabs and the ESIC
    cliff of the API's calculation compose. */
module TakeHomePay {
  import opened Rounding
  import opened Slabs
  import opened PayrollCalculator

  /** From this gross pay on, in paise, one more paisa can raise the ESIC share and the
      monthly TDS by a paisa each. */
  const FIRST_DROP := 10000334

  ghost predicate Sane(s: Settings) {
    0.0 <= s.pfWageCeiling && 0.0 <= s.overtimeMultiplier && 0.0 < s.workingHoursPerDay
  }

  ghost predicate NonNegative(i: Input) {
    && 0.0 <= i.basicSalary && 0.0 <= i.hra && 0.0 <= i.allowances
    && 0.0 <= i.workingDays && 0.0 <= i.presentDays && 0.0 <= i.leaveDays
    && 0.0 <= i.overtimeHours && 0.0 <= i.bonus && 0.0 <= i.otherDeductions
  }

  /** `b` is `a` with more bonus, present days, leave days or overtime, all else equal. */
  ghost predicate EarnsMore(a: Input, b: Input) {
    && b == a.(bonus := b.bonus, presentDays := b.presentDays, leaveDays := b.leaveDays,
        overtimeHours := b.overtimeHours)
    && a.bonus <= b.bonus && a.presentDays <= b.presentDays
    && a.leaveDays <= b.leaveDays && a.overtimeHours <= b.overtimeHours
  }

  ghost predicate NetNeverFalls(s: Settings)
    requires Sane(s)
  {
    forall a, b :: NonNegative(a) && EarnsMore(a, b) ==> ApiPayslip(s, a).netSalary <= ApiPayslip(s, b).netSalary
  }

  // ----- Gross pay -----

  lemma {:induction false} RatioMonotone(a: Input, b: Input)
    requires NonNegative(a) && EarnsMore(a, b)
    ensures 0.0 <= Ratio(a) <= Ratio(b)
  {
    if a.workingDays > 0.0 {
      Scaling(a.presentDays + a.leaveDays, b.presentDays + b.leaveDays, a.workingDays);
      Scaling(0.0, a.presentDays + a.leaveDays, a.workingDays);
    }
  }

  lemma {:induction false} ProratedMonotone(amount: real, x: real, y: real)
    requires 0.0 <= amount && 0.0 <= x <= y
    ensures 0 <= Prorated(amount, x) <= Prorated(amount, y)
  {
    var p, q := amount * x, amount * y;
    assert 0.0 <= p <= q;
    HalfUpMonotone(0.0, p);
    HalfUpMonotone(p, q);
  }

  lemma {:induction false} OvertimeMonotone(perHour: real, x: real, y: real, multiplier: real)
    requires 0.0 <= perHour && 0.0 <= x <= y && 0.0 <= multiplier
    ensures 0 <= OvertimePay(perHour, x, multiplier) <= OvertimePay(perHour, y, multiplier)
  {
    var p, q := perHour * x, perHour * y;
    assert 0.0 <= p <= q;
    ProratedMonotone(multiplier, p, q);
    assert p * multiplier == multiplier * p && q * multiplier == multiplier * q;
  }

  lemma {:induction false} PerHourNonNegative(s: Settings, i: Input)
    requires Sane(s) && 0.0 <= i.basicSalary
    ensures 0.0 <= PerHour(s, i)
  {
    Scaling(0.0, i.basicSalary / 26.0, s.workingHoursPerDay);
  }

  lemma {:induction false} SumMonotone(a: Earnings, b: Earnings, x: real, y: real)
    requires 0 <= a.basic <= b.basic && 0 <= a.hra <= b.hra && 0 <= a.allowances <= b.allowances
    requires 0 <= a.overtimePay <= b.overtimePay && 0.0 <= x <= y
    ensures 0 <= GrossOf(a, x) <= GrossOf(b, y)
  {}

  lemma {:induction false} GrossMonotone(s: Settings, a: Input, b: Input)
    requires Sane(s) && NonNegative(a) && EarnsMore(a, b)
    ensures 0 <= GrossFor(s, a) <= GrossFor(s, b)
  {
    RatioMonotone(a, b);
    ProratedMonotone(a.basicSalary, Ratio(a), Ratio(b));
    ProratedMonotone(a.hra, Ratio(a), Ratio(b));
    ProratedMonotone(a.allowances, Ratio(a), Ratio(b));
    PerHourNonNegative(s, a);
    OvertimeMonotone(PerHour(s, a), a.overtimeHours, b.overtimeHours, s.overtimeMultiplier);
    SumMonotone(EarningsOf(s, a), EarningsOf(s, b), a.bonus, b.bonus);
  }

  lemma {:induction false} EarningsNonNegative(s: Settings, i: Input)
    requires Sane(s) && NonNegative(i)
    ensures var e := EarningsOf(s, i); 0 <= e.basic && 0 <= e.hra && 0 <= e.allowances && 0 <= e.overtimePay
  {
    RatioMonotone(i, i);
    ProratedMonotone(i.basicSalary, Ratio(i), Ratio(i));
    ProratedMonotone(i.hra, Ratio(i), Ratio(i));
    ProratedMonotone(i.allowances, Ratio(i), Ratio(i));
    PerHourNonNegative(s, i);
    OvertimeMonotone(PerHour(s, i), i.overtimeHours, i.overtimeHours, s.overtimeMultiplier);
  }

  // ----- What one more paisa of gross pay does to the deductions -----

  lemma {:induction false} EsicIsQuotient(gross: nat)
    ensures HalfUp(gross as real * 0.0075) == (3 * gross + 200) / 400
  {
    FloorOfFraction(3 * gross + 200, 400);
    assert gross as real * 0.0075 + 0.5 == (3 * gross + 200) as real / 400.0;
  }

  lemma {:induction false} ApiTdsIsQuotient(gross: nat)
    ensures ApiTds(true, gross) == ((TenfoldTax(gross) + 5) / 10 + 6) / 12
  {
    TenfoldTaxIsTax(gross);
    var t := TenfoldTax(gross);
    FloorOfFraction(t + 5, 10);
    assert AnnualTax(gross as real * 12.0) + 0.5 == (t + 5) as real / 10.0;
    var n := (t + 5) / 10;
    FloorOfFraction(n + 6, 12);
    assert n as real / 12.0 + 0.5 == (n + 6) as real / 12.0;
  }

  function EsicQuotient(gross: nat): nat {
    (3 * gross + 200) / 400
  }

  function TdsQuotient(gross: nat): nat {
    ((TenfoldTax(gross) + 5) / 10 + 6) / 12
  }

  /** Neither deduction rises by more than the extra paisa. */
  lemma {:induction false} EachStepsByAtMostOne(gross: nat)
    ensures EsicQuotient(gross) <= EsicQuotient(gross + 1) <= EsicQuotient(gross) + 1
    ensures TdsQuotient(gross) <= TdsQuotient(gross + 1) <= TdsQuotient(gross) + 1
  {
    assert TenfoldTax(gross) <= TenfoldTax(gross + 1) <= TenfoldTax(gross) + 36;
  }

  /** The ESIC share steps up only at three gross amounts in every 400. */
  lemma {:induction false} EsicStepsAt(gross: nat)
    requires EsicQuotient(gross) < EsicQuotient(gross + 1)
    ensures gross % 400 == 66 || gross % 400 == 199 || gross % 400 == 333
  {
    var q, r := gross / 400, gross % 400;
    assert gross == 400 * q + r;
    assert 3 * gross + 200 == 400 * (3 * q) + 3 * r + 200;
    assert (3 * gross + 200) / 400 == 3 * q + (3 * r + 200) / 400;
    assert (3 * gross + 203) / 400 == 3 * q + (3 * r + 203) / 400;
  }

  /** Where a slab's slope is `c` per 10 paise, TDS steps up once the tenfold tax passes 55
      modulo 120. */
  lemma {:induction false} TdsStepsAt(gross: nat)
    requires TdsQuotient(gross) < TdsQuotient(gross + 1)
    ensures (TenfoldTax(gross + 1) + 65) % 120 < TenfoldTax(gross + 1) - TenfoldTax(gross)
  {
    var t, t' := TenfoldTax(gross), TenfoldTax(gross + 1);
    assert ((t + 5) / 10 + 6) / 12 == (t + 65) / 120;
    assert ((t' + 5) / 10 + 6) / 12 == (t' + 65) / 120;
  }

  lemma {:induction false} Residue(u: int, k: int, v: int)
    requires u == 120 * k + v
    ensures u % 120 == v % 120
  {}

  /** The amounts where the ESIC share steps up leave the tenfold tax too far from a step. */
  lemma {:induction false} EsicStepIsNoTdsStep(gross: nat, q: nat, r: nat)
    requires gross + 1 < FIRST_DROP && gross == 400 * q + r && (r == 66 || r == 199 || r == 333)
    ensures (TenfoldTax(gross + 1) + 65) % 120 >= TenfoldTax(gross + 1) - TenfoldTax(gross)
  {
    var u := TenfoldTax(gross + 1) + 65;
    if gross < 2500000 {
      assert u == 65;
    } else if (gross + 1) * 12 <= 70000000 {
      Residue(u, 20 * q - 125000, 6 * r + 71);
      assert TenfoldTax(gross + 1) - TenfoldTax(gross) == 6;
    } else if (gross + 1) * 12 <= 100000000 {
      Residue(u, 40 * q - 416667, 12 * r + 117);
      assert TenfoldTax(gross + 1) - TenfoldTax(gross) <= 12;
    } else if (gross + 1) * 12 <= 120000000 {
      Residue(u, 60 * q - 833334, 18 * r + 163);
      assert TenfoldTax(gross + 1) - TenfoldTax(gross) <= 18;
    } else {
      assert q == 25000 && r < 333;
    }
  }

  /** Up to the first drop the two never rise together. */
  lemma {:induction false} NeverTogetherBelowFirstDrop(gross: nat)
    requires gross + 1 < FIRST_DROP
    ensures EsicQuotient(gross + 1) + TdsQuotient(gross + 1) <= EsicQuotient(gross) + TdsQuotient(gross) + 1
  {
    EachStepsByAtMostOne(gross);
    if EsicQuotient(gross) < EsicQuotient(gross + 1) && TdsQuotient(gross) < TdsQuotient(gross + 1) {
      EsicStepsAt(gross);
      TdsStepsAt(gross);
      EsicStepIsNoTdsStep(gross, gross / 400, gross % 400);
      assert false;
    }
  }

  // ----- Net pay as a function of gross pay -----

  function TakeHome(s: Settings, i: Input, gross: int): int {
    gross - Esic(i.esicEnabled, s.esicWageCeiling, gross, 0.0075) - ApiTds(i.tdsEnabled, gross)
  }

  lemma {:induction false} PfNotNegative(s: Settings, i: Input)
    requires Sane(s) && NonNegative(i)
    ensures HalfUp(PfWage(s, i) * 0.12) >= 0
  {
    HalfUpMonotone(0.0, PfWage(s, i) * 0.12);
  }

  lemma {:induction false} EsicNotNegative(enabled: bool, ceiling: real, gross: nat)
    ensures Esic(enabled, ceiling, gross, 0.0075) >= 0
  {
    EsicIsQuotient(gross);
  }

  /** Gross pay is paid out less each deduction by itself. */
  lemma {:induction false} NetOfSlip(s: Settings, i: Input, tds: nat)
    requires Sane(s) && NonNegative(i) && GrossFor(s, i) >= 0
    ensures SlipOf(s, i, tds).netSalary ==
            GrossFor(s, i) - Esic(i.esicEnabled, s.esicWageCeiling, GrossFor(s, i), 0.0075) - tds
            - HalfUp(PfWage(s, i) * 0.12) - HalfUp(i.otherDeductions)
  {
    PfNotNegative(s, i);
    EsicNotNegative(i.esicEnabled, s.esicWageCeiling, GrossFor(s, i));
    var pf, esic := HalfUp(PfWage(s, i) * 0.12), Esic(i.esicEnabled, s.esicWageCeiling, GrossFor(s, i), 0.0075);
    HalfUpShift(pf + esic + tds, i.otherDeductions);
  }

  lemma {:induction false} NetIsTakeHome(s: Settings, i: Input)
    requires Sane(s) && NonNegative(i) && GrossFor(s, i) >= 0
    ensures ApiPayslip(s, i).netSalary ==
        TakeHome(s, i, GrossFor(s, i)) - HalfUp(PfWage(s, i) * 0.12) - HalfUp(i.otherDeductions)
  {
    TdsAgrees(i.tdsEnabled, GrossFor(s, i));
    NetOfSlip(s, i, ApiTds(i.tdsEnabled, GrossFor(s, i)));
  }

  lemma {:induction false} TdsIsQuotient(enabled: bool, gross: nat)
    ensures ApiTds(enabled, gross) == if enabled then TdsQuotient(gross) else 0
  {
    ApiTdsIsQuotient(gross);
  }

  lemma {:induction false} TakeHomeStep(s: Settings, i: Input, gross: nat)
    requires s.esicWageCeiling < FIRST_DROP as real
    ensures TakeHome(s, i, gross) <= TakeHome(s, i, gross + 1)
  {
    EsicIsQuotient(gross);
    EsicIsQuotient(gross + 1);
    TdsIsQuotient(i.tdsEnabled, gross);
    TdsIsQuotient(i.tdsEnabled, gross + 1);
    EachStepsByAtMostOne(gross);
    if gross + 1 < FIRST_DROP {
      NeverTogetherBelowFirstDrop(gross);
    }
  }

  lemma {:induction false} TakeHomeMonotone(s: Settings, i: Input, low: nat, high: nat)
    requires s.esicWageCeiling < FIRST_DROP as real && low <= high
    ensures TakeHome(s, i, low) <= TakeHome(s, i, high)
    decreases high - low
  {
    if low < high {
      TakeHomeMonotone(s, i, low, high - 1);
      TakeHomeStep(s, i, high - 1);
    }
  }

  lemma {:induction false} NetMonotone(s: Settings, a: Input, b: Input)
    requires Sane(s) && s.esicWageCeiling < FIRST_DROP as real
    requires NonNegative(a) && EarnsMore(a, b)
    ensures ApiPayslip(s, a).netSalary <= ApiPayslip(s, b).netSalary
  {
    GrossMonotone(s, a, b);
    NetIsTakeHome(s, a);
    NetIsTakeHome(s, b);
    TakeHomeMonotone(s, a, GrossFor(s, a), GrossFor(s, b));
  }

  // ----- The worker's payslip -----

  function WorkerTakeHome(i: Input, gross: int): int {
    gross - Esic(i.esicEnabled, DEFAULTS.esicWageCeiling, gross, 0.0075) - WorkerTds(i.tdsEnabled, gross)
  }

  lemma {:induction false} WorkerTdsIsQuotient(gross: nat)
    ensures WorkerTds(true, gross) == (TenfoldTax(gross) + 60) / 120
  {
    TenfoldTaxIsTax(gross);
    var t := TenfoldTax(gross);
    FloorOfFraction(t + 60, 120);
    assert AnnualTax(gross as real * 12.0) / 12.0 + 0.5 == (t + 60) as real / 120.0;
  }

  /** Where ESIC is due there is no tax yet, so only one of the two can rise. */
  lemma {:induction false} WorkerTakeHomeStep(i: Input, gross: nat)
    ensures WorkerTakeHome(i, gross) <= WorkerTakeHome(i, gross + 1)
  {
    EsicIsQuotient(gross);
    EsicIsQuotient(gross + 1);
    WorkerTdsIsQuotient(gross);
    WorkerTdsIsQuotient(gross + 1);
    EachStepsByAtMostOne(gross);
    assert TenfoldTax(gross) <= TenfoldTax(gross + 1) <= TenfoldTax(gross) + 36;
  }

  lemma {:induction false} WorkerTakeHomeMonotone(i: Input, low: nat, high: nat)
    requires low <= high
    ensures WorkerTakeHome(i, low) <= WorkerTakeHome(i, high)
    decreases high - low
  {
    if low < high {
      WorkerTakeHomeMonotone(i, low, high - 1);
      WorkerTakeHomeStep(i, high - 1);
    }
  }

  lemma {:induction false} WorkerNetIsTakeHome(i: Input)
    requires NonNegative(i) && GrossFor(DEFAULTS, i) >= 0
    ensures WorkerPayslip(i).netSalary ==
        WorkerTakeHome(i, GrossFor(DEFAULTS, i)) - HalfUp(PfWage(DEFAULTS, i) * 0.12) - HalfUp(i.otherDeductions)
  {
    TdsAgrees(i.tdsEnabled, GrossFor(DEFAULTS, i));
    NetOfSlip(DEFAULTS, i, WorkerTds(i.tdsEnabled, GrossFor(DEFAULTS, i)));
  }

  /** Nor does it lower the net pay that the worker calculates. */
  lemma {:induction false} WorkerNetMonotone(a: Input, b: Input)
    requires NonNegative(a) && EarnsMore(a, b)
    ensures WorkerPayslip(a).netSalary <= WorkerPayslip(b).netSalary
  {
    GrossMonotone(DEFAULTS, a, b);
    WorkerNetIsTakeHome(a);
    WorkerNetIsTakeHome(b);
    WorkerTakeHomeMonotone(a, GrossFor(DEFAULTS, a), GrossFor(DEFAULTS, b));
  }

  // ----- The exact bound on the ESIC ceiling -----

  /** A staff member paid by bonus alone. */
  function BonusOnly(bonus: real): Input {
    Input(0.0, 0.0, 0.0, 26.0, 26.0, 0.0, 0.0, false, true, true, bonus, 0.0)
  }

  lemma {:induction false} BonusOnlyGross(s: Settings, bonus: nat)
    requires Sane(s)
    ensures GrossFor(s, BonusOnly(bonus as real)) == bonus
  {
    var i := BonusOnly(bonus as real);
    assert i.basicSalary / 26.0 / s.workingHoursPerDay == 0.0;
    assert EarningsOf(s, i) == Earnings(0, 0, 0, 0);
    HalfUpWhole(bonus);
  }

  /** With the ESIC ceiling at the first drop or above, one more paisa of bonus there costs a
      paisa of net pay. */
  lemma {:induction false} DropAt(s: Settings)
    requires Sane(s) && s.esicWageCeiling >= FIRST_DROP as real
    ensures ApiPayslip(s, BonusOnly((FIRST_DROP - 1) as real)).netSalary ==
            ApiPayslip(s, BonusOnly(FIRST_DROP as real)).netSalary + 1
  {
    var a, b := BonusOnly((FIRST_DROP - 1) as real), BonusOnly(FIRST_DROP as real);
    BonusOnlyGross(s, FIRST_DROP - 1);
    BonusOnlyGross(s, FIRST_DROP);
    NetIsTakeHome(s, a);
    NetIsTakeHome(s, b);
    EsicIsQuotient(FIRST_DROP - 1);
    EsicIsQuotient(FIRST_DROP);
    ApiTdsIsQuotient(FIRST_DROP - 1);
    ApiTdsIsQuotient(FIRST_DROP);
  }

  /** More bonus, attendance, leave or overtime never lowers net pay, for every salary,
      exactly when the configured ESIC ceiling is below Rs 1,00,003.34. */
  lemma {:induction false} NetNeverFallsExactly(s: Settings)
    requires Sane(s)
    ensures NetNeverFalls(s) <==> s.esicWageCeiling < FIRST_DROP as real
  {
    if s.esicWageCeiling < FIRST_DROP as real {
      forall a, b | NonNegative(a) && EarnsMore(a, b)
        ensures ApiPayslip(s, a).netSalary <= ApiPayslip(s, b).netSalary
      {
        NetMonotone(s, a, b);
      }
    } else {
      DropAt(s);
      var a, b := BonusOnly((FIRST_DROP - 1) as real), BonusOnly(FIRST_DROP as real);
      assert NonNegative(a) && EarnsMore(a, b);
    }
  }
}
