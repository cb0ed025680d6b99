/** The payroll calculation: the employee's deductions and net pay, the
    employer's direct monthly costs, the monthly provisions for annual
    obligations, and the employer's total cost. */
module Payroll {
  import opened Types
  import opened Money
  import opened Constants
  import opened Inss
  import opened Irrf

  /** FGTS deposit rate: reduced for apprentices. */
  function FgtsRate(contractType: ContractType): (rate: real)
    ensures rate == if contractType == Apprentice then 0.02 else 0.08
  {
    if contractType == Apprentice then FGTS_RATE_APPRENTICE else FGTS_RATE_CLT
  }

  /** What the transportation voucher costs in the month, or 0 without one. */
  function TotalTransportationCost(inputs: PayrollInputs): (total: real)
    ensures !inputs.hasTransportationVoucher ==> total == 0.0
    ensures inputs.hasTransportationVoucher ==>
      total == inputs.transportationVoucherValue * inputs.workingDays as real
    ensures ValidInputs(inputs) ==> total >= 0.0
  {
    if inputs.hasTransportationVoucher
    then inputs.transportationVoucherValue * inputs.workingDays as real
    else 0.0
  }

  /** The employee's share of the voucher: its whole cost, capped at 6% of
      the gross salary. */
  function TransportationDiscount(inputs: PayrollInputs): (d: real)
    ensures !inputs.hasTransportationVoucher ==> d == 0.0
    ensures inputs.hasTransportationVoucher ==>
      d == TotalTransportationCost(inputs) || d == inputs.grossSalary * 0.06
    ensures inputs.hasTransportationVoucher ==>
      d <= TotalTransportationCost(inputs) && d <= inputs.grossSalary * 0.06
    ensures ValidInputs(inputs) ==>
      0.0 <= d <= inputs.transportationVoucherValue * inputs.workingDays as real
  {
    var total := TotalTransportationCost(inputs);
    var maxDiscount := inputs.grossSalary * TRANSPORTATION_VOUCHER_DISCOUNT_RATE;
    if inputs.hasTransportationVoucher then (if total < maxDiscount then total else maxDiscount)
    else 0.0
  }

  /** The employee's side: contribution, income tax on what is left, and the
      voucher discount; none of these sums is rounded again. */
  function EmployeeSide(inputs: PayrollInputs): (e: EmployeeResults)
    ensures e.grossSalary == inputs.grossSalary
    ensures e.inss == InssAmount(inputs.grossSalary)
    ensures e.irrf == IrrfAmount(inputs.grossSalary, e.inss, inputs.dependents)
    ensures e.transportationVoucherDiscount == TransportationDiscount(inputs)
    ensures e.netSalary + e.totalDeductions == inputs.grossSalary
    ensures e.totalDeductions == e.inss + e.irrf + e.transportationVoucherDiscount
    ensures IsCents(e.inss) && IsCents(e.irrf)
    ensures ValidInputs(inputs) ==> e.netSalary <= inputs.grossSalary
  {
    var inss := InssAmount(inputs.grossSalary);
    var irrf := IrrfAmount(inputs.grossSalary, inss, inputs.dependents);
    var discount := TransportationDiscount(inputs);
    var totalDeductions := inss + irrf + discount;
    EmployeeResults(inputs.grossSalary, inss, irrf, discount, totalDeductions,
                    inputs.grossSalary - totalDeductions)
  }

  /** The employer's figures before they are rounded for the result. */
  function UnroundedEmployerCosts(inputs: PayrollInputs, includeEmployerTaxes: bool): (e: EmployerResults)
    ensures e.grossSalary == inputs.grossSalary
    // the totals
    ensures e.totalProvisions
            == e.thirteenthSalaryProvision + e.vacationProvision + e.vacationBonusProvision
               + e.fgtsOnProvisions + e.thirteenthProvisionTaxes + e.fgtsFineProvision
    ensures e.totalCost
            == e.grossSalary + e.fgts + e.transportationVoucherCost + e.mealVoucherCost
               + e.employerInss + e.thirdPartyContributions + e.totalProvisions
  {
    var grossSalary := inputs.grossSalary;
    var fgtsRate := FgtsRate(inputs.contractType);
    var totalTransportationCost := TotalTransportationCost(inputs);
    var transportationVoucherDiscount := TransportationDiscount(inputs);

    var fgts := grossSalary * fgtsRate;
    var transportationVoucherCost :=
      if totalTransportationCost > 0.0 then totalTransportationCost - transportationVoucherDiscount else 0.0;
    var mealVoucherCost :=
      if inputs.hasMealVoucher then inputs.mealVoucherValue * inputs.workingDays as real else 0.0;
    var employerInss := if includeEmployerTaxes then grossSalary * EMPLOYER_INSS_RATE else 0.0;
    var thirdPartyContributions :=
      if includeEmployerTaxes then grossSalary * (RAT_RATE + THIRD_PARTY_RATE) else 0.0;

    var thirteenthSalaryProvision := if inputs.includeThirteenth then grossSalary / 12.0 else 0.0;
    var vacationProvision := if inputs.includeVacation then grossSalary / 12.0 else 0.0;
    var vacationBonusProvision := if inputs.includeVacation then vacationProvision / 3.0 else 0.0;
    var annualProvisionsBase := thirteenthSalaryProvision + vacationProvision + vacationBonusProvision;
    var fgtsOnProvisions := annualProvisionsBase * fgtsRate;
    var thirteenthProvisionTaxes :=
      if includeEmployerTaxes && inputs.includeThirteenth
      then thirteenthSalaryProvision * (EMPLOYER_INSS_RATE + RAT_RATE + THIRD_PARTY_RATE)
      else 0.0;
    var totalMonthlyFgtsDeposit := fgts + fgtsOnProvisions;
    var fgtsFineProvision := if inputs.includeFgtsFine then totalMonthlyFgtsDeposit * 0.40 else 0.0;

    var totalProvisions :=
      annualProvisionsBase + fgtsOnProvisions + fgtsFineProvision + thirteenthProvisionTaxes;
    var totalMonthlyDirectCosts :=
      grossSalary + fgts + transportationVoucherCost + mealVoucherCost + employerInss + thirdPartyContributions;
    var totalCost := totalMonthlyDirectCosts + totalProvisions;

    EmployerResults(
      grossSalary, fgts, transportationVoucherCost, mealVoucherCost, None, None,
      employerInss, thirdPartyContributions, thirteenthSalaryProvision, vacationProvision,
      vacationBonusProvision, fgtsOnProvisions, thirteenthProvisionTaxes, fgtsFineProvision,
      totalProvisions, totalCost)
  }

  /** Every employer figure but the gross salary rounded to cents. */
  function RoundEmployer(e: EmployerResults): (r: EmployerResults)
    ensures r.grossSalary == e.grossSalary
    ensures r.healthPlanCost == e.healthPlanCost && r.lifeInsuranceCost == e.lifeInsuranceCost
    ensures && RoundedFrom(r.fgts, e.fgts)
            && RoundedFrom(r.transportationVoucherCost, e.transportationVoucherCost)
            && RoundedFrom(r.mealVoucherCost, e.mealVoucherCost)
            && RoundedFrom(r.employerInss, e.employerInss)
            && RoundedFrom(r.thirdPartyContributions, e.thirdPartyContributions)
            && RoundedFrom(r.thirteenthSalaryProvision, e.thirteenthSalaryProvision)
            && RoundedFrom(r.vacationProvision, e.vacationProvision)
            && RoundedFrom(r.vacationBonusProvision, e.vacationBonusProvision)
            && RoundedFrom(r.fgtsOnProvisions, e.fgtsOnProvisions)
            && RoundedFrom(r.thirteenthProvisionTaxes, e.thirteenthProvisionTaxes)
            && RoundedFrom(r.fgtsFineProvision, e.fgtsFineProvision)
            && RoundedFrom(r.totalProvisions, e.totalProvisions)
            && RoundedFrom(r.totalCost, e.totalCost)
  {
    e.(fgts := Round2(e.fgts),
       transportationVoucherCost := Round2(e.transportationVoucherCost),
       mealVoucherCost := Round2(e.mealVoucherCost),
       employerInss := Round2(e.employerInss),
       thirdPartyContributions := Round2(e.thirdPartyContributions),
       thirteenthSalaryProvision := Round2(e.thirteenthSalaryProvision),
       vacationProvision := Round2(e.vacationProvision),
       vacationBonusProvision := Round2(e.vacationBonusProvision),
       fgtsOnProvisions := Round2(e.fgtsOnProvisions),
       thirteenthProvisionTaxes := Round2(e.thirteenthProvisionTaxes),
       fgtsFineProvision := Round2(e.fgtsFineProvision),
       totalProvisions := Round2(e.totalProvisions),
       totalCost := Round2(e.totalCost))
  }

  /** The whole calculation. `includeEmployerTaxes` is the flag that turns
      the employer-side taxes on; it is not a field of the input record. */
  function CalculatePayroll(inputs: PayrollInputs, includeEmployerTaxes: bool): (r: PayrollResults)
    ensures r.inputs == inputs
    ensures r.employee.grossSalary == inputs.grossSalary == r.employer.grossSalary
    ensures r.employee.inss == InssAmount(inputs.grossSalary)
    ensures r.employee.irrf == IrrfAmount(inputs.grossSalary, r.employee.inss, inputs.dependents)
    ensures r.employee.transportationVoucherDiscount == TransportationDiscount(inputs)
    ensures r.employee.totalDeductions
            == r.employee.inss + r.employee.irrf + r.employee.transportationVoucherDiscount
    ensures r.employee.netSalary
            == inputs.grossSalary - (r.employee.inss + r.employee.irrf + r.employee.transportationVoucherDiscount)
    ensures ValidInputs(inputs) ==> r.employee.netSalary <= inputs.grossSalary
    ensures r.employer == RoundEmployer(UnroundedEmployerCosts(inputs, includeEmployerTaxes))
    ensures r.employer.healthPlanCost.None? && r.employer.lifeInsuranceCost.None?
  {
    InssBounds(inputs.grossSalary);
    PayrollResults(inputs, EmployeeSide(inputs),
                   RoundEmployer(UnroundedEmployerCosts(inputs, includeEmployerTaxes)))
  }

  /** One FGTS rate serves both the deposit on the salary and the deposit
      on the provisions. */
  lemma EmployerFgts(inputs: PayrollInputs, includeEmployerTaxes: bool)
    ensures var e := UnroundedEmployerCosts(inputs, includeEmployerTaxes);
      && e.fgts == inputs.grossSalary * FgtsRate(inputs.contractType)
      && e.fgtsOnProvisions
         == (e.thirteenthSalaryProvision + e.vacationProvision + e.vacationBonusProvision)
            * FgtsRate(inputs.contractType)
  {
  }

  /** The employer pays what the employee's share does not cover, and never
      a negative amount. */
  lemma EmployerTransportCost(inputs: PayrollInputs, includeEmployerTaxes: bool)
    requires ValidInputs(inputs)
    ensures var e := UnroundedEmployerCosts(inputs, includeEmployerTaxes);
      e.transportationVoucherCost == TotalTransportationCost(inputs) - TransportationDiscount(inputs) >= 0.0
  {
  }

  /** The regime switch: without it the employer-side taxes are all zero;
      with it they are 28.8% of the gross salary and of the 13th-salary
      provision, the latter only when that provision is on. */
  lemma EmployerTaxGate(inputs: PayrollInputs, includeEmployerTaxes: bool)
    ensures var e := UnroundedEmployerCosts(inputs, includeEmployerTaxes);
      && (!includeEmployerTaxes ==>
            e.employerInss == 0.0 && e.thirdPartyContributions == 0.0 && e.thirteenthProvisionTaxes == 0.0)
      && (includeEmployerTaxes ==>
            e.employerInss == 0.20 * inputs.grossSalary
            && e.thirdPartyContributions == 0.088 * inputs.grossSalary
            && e.employerInss + e.thirdPartyContributions == 0.288 * inputs.grossSalary
            && e.thirteenthProvisionTaxes == 0.288 * e.thirteenthSalaryProvision)
      && (e.thirteenthProvisionTaxes != 0.0 ==> includeEmployerTaxes && inputs.includeThirteenth)
  {
  }

  /** Each benefit and provision is gated by its own toggle: a twelfth of the
      salary for the 13th salary and for vacation, a third of the vacation
      provision for the vacation bonus, and 40% of all FGTS deposits for the
      severance fine. */
  lemma ProvisionGates(inputs: PayrollInputs, includeEmployerTaxes: bool)
    ensures var e := UnroundedEmployerCosts(inputs, includeEmployerTaxes);
      && e.mealVoucherCost
         == (if inputs.hasMealVoucher then inputs.mealVoucherValue * inputs.workingDays as real else 0.0)
      && e.thirteenthSalaryProvision == (if inputs.includeThirteenth then inputs.grossSalary / 12.0 else 0.0)
      && e.vacationProvision == (if inputs.includeVacation then inputs.grossSalary / 12.0 else 0.0)
      && e.vacationBonusProvision * 3.0 == e.vacationProvision
      && e.fgtsFineProvision
         == (if inputs.includeFgtsFine then 0.40 * (e.fgts + e.fgtsOnProvisions) else 0.0)
  {
  }

  /** The gates survive rounding: every figure a toggle or the regime switch
      turns off is exactly zero in the result. */
  lemma PayrollGates(inputs: PayrollInputs, includeEmployerTaxes: bool)
    ensures var r := CalculatePayroll(inputs, includeEmployerTaxes);
      && (!includeEmployerTaxes ==>
            r.employer.employerInss == 0.0 && r.employer.thirdPartyContributions == 0.0
            && r.employer.thirteenthProvisionTaxes == 0.0)
      && (r.employer.thirteenthProvisionTaxes != 0.0 ==> includeEmployerTaxes && inputs.includeThirteenth)
      && (!inputs.hasTransportationVoucher ==>
            r.employee.transportationVoucherDiscount == 0.0 && r.employer.transportationVoucherCost == 0.0)
      && (!inputs.hasMealVoucher ==> r.employer.mealVoucherCost == 0.0)
      && (!inputs.includeThirteenth ==> r.employer.thirteenthSalaryProvision == 0.0)
      && (!inputs.includeVacation ==>
            r.employer.vacationProvision == 0.0 && r.employer.vacationBonusProvision == 0.0)
      && (!inputs.includeFgtsFine ==> r.employer.fgtsFineProvision == 0.0)
  {
    EmployerTaxGate(inputs, includeEmployerTaxes);
    ProvisionGates(inputs, includeEmployerTaxes);
    assert IsCents(0.0);
    Round2OfCents(0.0);
  }

  /** With the inputs the form guarantees, no employer figure is negative
      and the total cost is at least the gross salary. */
  lemma EmployerCostsNonNegative(inputs: PayrollInputs, includeEmployerTaxes: bool)
    requires ValidInputs(inputs)
    ensures var e := UnroundedEmployerCosts(inputs, includeEmployerTaxes);
      && e.fgts >= 0.0 && e.transportationVoucherCost >= 0.0 && e.mealVoucherCost >= 0.0
      && e.employerInss >= 0.0 && e.thirdPartyContributions >= 0.0
      && e.thirteenthSalaryProvision >= 0.0 && e.vacationProvision >= 0.0
      && e.vacationBonusProvision >= 0.0 && e.fgtsOnProvisions >= 0.0
      && e.thirteenthProvisionTaxes >= 0.0 && e.fgtsFineProvision >= 0.0
      && e.totalProvisions >= 0.0 && e.totalCost >= inputs.grossSalary
  {
    var e := UnroundedEmployerCosts(inputs, includeEmployerTaxes);
    assert inputs.mealVoucherValue * inputs.workingDays as real >= 0.0;
  }

  /** Switching the employer-side taxes on adds exactly 28.8% of the gross
      salary and of the 13th-salary provision to the unrounded total cost. */
  lemma EmployerTaxSwitch(inputs: PayrollInputs)
    ensures var off := UnroundedEmployerCosts(inputs, false);
      UnroundedEmployerCosts(inputs, true).totalCost
      == off.totalCost + 0.288 * (inputs.grossSalary + off.thirteenthSalaryProvision)
  {
  }

  /** For the same inputs, an apprentice's FGTS deposit and FGTS on
      provisions are a quarter of a standard contract's. */
  lemma ApprenticeFgtsIsQuarter(inputs: PayrollInputs, includeEmployerTaxes: bool)
    ensures var apprentice := UnroundedEmployerCosts(inputs.(contractType := Apprentice), includeEmployerTaxes);
      var clt := UnroundedEmployerCosts(inputs.(contractType := Clt), includeEmployerTaxes);
      clt.fgts == 4.0 * apprentice.fgts && clt.fgtsOnProvisions == 4.0 * apprentice.fgtsOnProvisions
  {
  }

  /** Two inputs agree on every field the calculation reads: all but the
      tax regime, the health-plan and life-insurance toggles and their costs. */
  predicate SameReadFields(a: PayrollInputs, b: PayrollInputs) {
    && a.grossSalary == b.grossSalary && a.dependents == b.dependents
    && a.transportationVoucherValue == b.transportationVoucherValue
    && a.mealVoucherValue == b.mealVoucherValue && a.workingDays == b.workingDays
    && a.hasTransportationVoucher == b.hasTransportationVoucher && a.hasMealVoucher == b.hasMealVoucher
    && a.includeThirteenth == b.includeThirteenth && a.includeVacation == b.includeVacation
    && a.includeFgtsFine == b.includeFgtsFine && a.contractType == b.contractType
  }

  /** Inputs that agree on the read fields give the same figures: the tax
      regime, the health plan and the life insurance change nothing. */
  lemma UnreadInputsIgnored(a: PayrollInputs, b: PayrollInputs, includeEmployerTaxes: bool)
    requires SameReadFields(a, b)
    ensures CalculatePayroll(a, includeEmployerTaxes).employee == CalculatePayroll(b, includeEmployerTaxes).employee
    ensures CalculatePayroll(a, includeEmployerTaxes).employer == CalculatePayroll(b, includeEmployerTaxes).employer
  {
    EmployeeSideReadOnly(a, b);
    EmployerCostsReadOnly(a, b, includeEmployerTaxes);
  }

  lemma TransportReadOnly(a: PayrollInputs, b: PayrollInputs)
    requires SameReadFields(a, b)
    ensures TotalTransportationCost(a) == TotalTransportationCost(b)
    ensures TransportationDiscount(a) == TransportationDiscount(b)
  {
  }

  lemma EmployeeSideReadOnly(a: PayrollInputs, b: PayrollInputs)
    requires SameReadFields(a, b)
    ensures EmployeeSide(a) == EmployeeSide(b)
  {
    TransportReadOnly(a, b);
  }

  /** The employer's component figures; the totals follow from their sums. */
  lemma EmployerFiguresReadOnly(a: PayrollInputs, b: PayrollInputs, includeEmployerTaxes: bool)
    requires SameReadFields(a, b)
    ensures var ea, eb := UnroundedEmployerCosts(a, includeEmployerTaxes), UnroundedEmployerCosts(b, includeEmployerTaxes);
      && ea.fgts == eb.fgts && ea.transportationVoucherCost == eb.transportationVoucherCost
      && ea.mealVoucherCost == eb.mealVoucherCost
      && ea.healthPlanCost == eb.healthPlanCost && ea.lifeInsuranceCost == eb.lifeInsuranceCost
      && ea.employerInss == eb.employerInss && ea.thirdPartyContributions == eb.thirdPartyContributions
      && ea.thirteenthSalaryProvision == eb.thirteenthSalaryProvision
      && ea.vacationProvision == eb.vacationProvision && ea.vacationBonusProvision == eb.vacationBonusProvision
      && ea.fgtsOnProvisions == eb.fgtsOnProvisions && ea.thirteenthProvisionTaxes == eb.thirteenthProvisionTaxes
      && ea.fgtsFineProvision == eb.fgtsFineProvision
  {
    TransportReadOnly(a, b);
  }

  lemma EmployerCostsReadOnly(a: PayrollInputs, b: PayrollInputs, includeEmployerTaxes: bool)
    requires SameReadFields(a, b)
    ensures UnroundedEmployerCosts(a, includeEmployerTaxes) == UnroundedEmployerCosts(b, includeEmployerTaxes)
  {
    EmployerFiguresReadOnly(a, b, includeEmployerTaxes);
  }

  /** The inputs the form starts with: gross 3000 on a standard contract,
      no dependents, 22 working days, transportation voucher at 8.80 a day,
      meal voucher at 25 a day, no health plan or life insurance, and every
      provision on. */
  function DefaultFormInputs(): PayrollInputs {
    PayrollInputs(
      grossSalary := 3000.00, dependents := 0,
      transportationVoucherValue := 8.80, mealVoucherValue := 25.00,
      healthPlanCost := 350.00, lifeInsuranceCost := 50.00, workingDays := 22,
      hasTransportationVoucher := true, hasMealVoucher := true,
      hasHealthPlan := false, hasLifeInsurance := false,
      includeThirteenth := true, includeVacation := true, includeFgtsFine := true,
      contractType := Clt, taxRegime := Simples)
  }

  /** The employee's side of the default scenario: contribution 258.82,
      income tax 36.15 on a base of 2741.18, voucher discount capped at
      `min(193.60, 180.00) = 180.00`, net pay 2525.03. */
  lemma DefaultScenarioEmployee()
    ensures var r := CalculatePayroll(DefaultFormInputs(), false);
      && r.employee.inss == 258.82
      && r.employee.irrf == 36.15
      && r.employee.transportationVoucherDiscount == 180.00
      && r.employee.totalDeductions == 474.97
      && r.employee.netSalary == 2525.03
  {
    InssExamples();
    IrrfExampleLowBand();
    assert TotalTransportationCost(DefaultFormInputs()) == 193.60;
  }

  /** The employer's side of the default scenario, without the employer-side
      taxes: provisions `250 + 250 + 83.33 + 46.67 + 114.67`, total 4548.27. */
  lemma DefaultScenarioEmployer()
    ensures var r := CalculatePayroll(DefaultFormInputs(), false);
      && r.employer.fgts == 240.00
      && r.employer.transportationVoucherCost == 13.60
      && r.employer.mealVoucherCost == 550.00
      && r.employer.employerInss == 0.0 && r.employer.thirdPartyContributions == 0.0
      && r.employer.thirteenthSalaryProvision == 250.00
      && r.employer.vacationProvision == 250.00
      && r.employer.vacationBonusProvision == 83.33
      && r.employer.fgtsOnProvisions == 46.67
      && r.employer.thirteenthProvisionTaxes == 0.0
      && r.employer.fgtsFineProvision == 114.67
      && r.employer.totalProvisions == 744.67
      && r.employer.totalCost == 4548.27
  {
    var inputs := DefaultFormInputs();
    var e := UnroundedEmployerCosts(inputs, false);
    assert TotalTransportationCost(inputs) == 193.60;
    assert TransportationDiscount(inputs) == 180.00;
    assert e.fgts == 240.00;
    assert e.transportationVoucherCost == 13.60;
    assert e.mealVoucherCost == 550.00;
    assert e.vacationBonusProvision == 250.00 / 3.0;
    assert e.fgtsOnProvisions == 140.00 / 3.0;
    assert e.fgtsFineProvision == 344.00 / 3.0;
    assert e.totalProvisions == 2234.00 / 3.0;
    assert e.totalCost == 3803.60 + 2234.00 / 3.0;
    RoundsTo(0.0, 0);
    RoundsTo(240.00, 24000);
    RoundsTo(13.60, 1360);
    RoundsTo(550.00, 55000);
    RoundsTo(250.00, 25000);
    RoundsTo(250.00 / 3.0, 8333);
    RoundsTo(140.00 / 3.0, 4667);
    RoundsTo(344.00 / 3.0, 11467);
    RoundsTo(2234.00 / 3.0, 74467);
    RoundsTo(3803.60 + 2234.00 / 3.0, 454827);
  }
}
