/** Record shapes of the payroll calculator: the request, the response and
    the rows of a bracket table. Money amounts and rates are exact reals. */
module Types {

  datatype Option<T> = None | Some(value: T) {
    /** The wrapped value, or `default` when there is none. */
    function GetOr(default: T): T {
      if Some? then value else default
    }
  }

  /** The two employment contracts; an apprentice pays a lower FGTS rate. */
  datatype ContractType = Clt | Apprentice

  /** The two tax regimes the form offers. */
  datatype TaxRegime = Simples | PresumidoReal

  /** Upper limit of a bracket: a finite amount, or no limit at all (the
      top income-tax band). */
  datatype Bound = Finite(value: real) | Unbounded {
    /** `x <= limit`, where nothing exceeds an unbounded limit. */
    predicate Admits(x: real) {
      Unbounded? || x <= value
    }

    /** `min(x, limit)`. */
    function Min(x: real): (m: real)
      ensures m <= x
      ensures Admits(x) <==> m == x
      ensures Finite? ==> m <= value
      ensures !Admits(x) ==> m == value
    {
      if Finite? && value < x then value else x
    }
  }

  /** One row of a bracket table; `deduction` is only given for income tax. */
  datatype TaxBracket = TaxBracket(limit: Bound, rate: real, deduction: Option<real>) {
    /** The flat deduction, counting an absent one as zero. */
    function DeductionOrZero(): (d: real)
      ensures deduction.Some? ==> d == deduction.value
      ensures deduction.None? ==> d == 0.0
    {
      deduction.GetOr(0.0)
    }
  }

  datatype PayrollInputs = PayrollInputs(
    grossSalary: real,
    dependents: nat,
    transportationVoucherValue: real,
    mealVoucherValue: real,
    healthPlanCost: real,
    lifeInsuranceCost: real,
    workingDays: nat,
    hasTransportationVoucher: bool,
    hasMealVoucher: bool,
    hasHealthPlan: bool,
    hasLifeInsurance: bool,
    includeThirteenth: bool,
    includeVacation: bool,
    includeFgtsFine: bool,
    contractType: ContractType,
    taxRegime: TaxRegime)

  /** What the form guarantees before it calls the calculator: counts are
      clamped to non-negative integers (the `nat` fields) and the amounts
      typed in are not negative. */
  predicate ValidInputs(inputs: PayrollInputs) {
    inputs.grossSalary >= 0.0
    && inputs.transportationVoucherValue >= 0.0
    && inputs.mealVoucherValue >= 0.0
    && inputs.healthPlanCost >= 0.0
    && inputs.lifeInsuranceCost >= 0.0
  }

  datatype EmployeeResults = EmployeeResults(
    grossSalary: real,
    inss: real,
    irrf: real,
    transportationVoucherDiscount: real,
    totalDeductions: real,
    netSalary: real)

  /** The employer's side. `healthPlanCost` and `lifeInsuranceCost` are
      declared in the record but never filled in by the calculator: `None`
      stands for the property being absent from the object it returns. */
  datatype EmployerResults = EmployerResults(
    grossSalary: real,
    fgts: real,
    transportationVoucherCost: real,
    mealVoucherCost: real,
    healthPlanCost: Option<real>,
    lifeInsuranceCost: Option<real>,
    employerInss: real,
    thirdPartyContributions: real,
    thirteenthSalaryProvision: real,
    vacationProvision: real,
    vacationBonusProvision: real,
    fgtsOnProvisions: real,
    thirteenthProvisionTaxes: real,
    fgtsFineProvision: real,
    totalProvisions: real,
    totalCost: real)

  datatype PayrollResults = PayrollResults(
    inputs: PayrollInputs,
    employee: EmployeeResults,
    employer: EmployerResults)
}
