# CalculadoraEncargos payroll core in Dafny

This is a model of the payroll calculator for Brazilian CLT employment contracts.
From a gross monthly salary and a set of benefit and provision toggles, the calculator computes:

- the employee side: the social-security contribution (INSS), the income-tax withholding (IRRF), the transportation-voucher discount and the net pay;
- the employer side: the FGTS deposit, the voucher costs, the optional employer taxes, the monthly provisions for the 13th salary, vacation, the vacation bonus and the FGTS severance fine, and the total cost to the employer.

The modules follow the source files:

- `Types` (types.dfy) is the input and result records of `types.ts`. The bracket record's limit is a `Bound`, either `Finite(value)` or `Unbounded` for the `Infinity` limit of the last income-tax band.
- `Constants` (constants.dfy) is the 2024 tables and flat rates of `constants.ts`, with lemmas on the shape of the two tables.
- `Money` (money.dfy) is the cent rounding `parseFloat(x.toFixed(2))`. It rounds half up on the magnitude, symmetrically in sign.
- `Brackets` (brackets.dfy) is the two table walks: the INSS marginal slice sum and the IRRF first-matching band.
- `Inss` and `Irrf` (inss.dfy, irrf.dfy) are `calculateINSS` and `calculateIRRF` in `services/payrollService.ts`. Each loop is a `method` with its invariant: `AccumulateSlices` is proved against the function `SliceSum` and `ApplyFirstBand` against `BandTax`. The methods around them, `CalculateInss` and `CalculateIrrf`, add the clamp, the exemption test and the rounding, and are proved against `InssAmount` and `IrrfAmount`. Lemmas then prove what those functions mean.
- `Payroll` (payroll.dfy) is `calculatePayroll`. It has no loop and changes no state, so it is a function. Lemmas cover its gates, its totals and the form's default scenario.

Money and rates are exact `real`s. Rounding happens exactly where the source rounds:

- the INSS and IRRF amounts;
- every employer figure except `grossSalary`.

The employee totals (`totalDeductions`, `netSalary`) are not rounded again, just as in the source.

Modelling decisions:

- `includeEmployerTaxes`: `calculatePayroll` reads this flag from its input, but `PayrollInputs` does not declare it, and the form sends `taxRegime` instead. The model passes the flag as an explicit `bool` parameter of `CalculatePayroll`. It does not invent a mapping from `taxRegime` to the flag.
- Employer health plan and life insurance: the result record declares `healthPlanCost` and `lifeInsuranceCost` (types.ts:35-36). `calculatePayroll` neither computes them nor adds them to `totalCost` (services/payrollService.ts:101-102, 109-124). In the model both fields are `None` and neither enters the total.
- `dependents` and `workingDays` are `nat`, because the form clamps both with `Math.max(0, parseInt(..) || 0)` (components/CalculatorForm.tsx:109, 113).
- The INSS loop assigns `lastLimit` after its exit test, not before it. Only the next iteration reads `lastLimit`, so the result is the same. The change lets the loop read a limit's value only when the limit is finite.

## Model

| member | source | states |
|---|---|---|
| Types.Bound.Min | services/payrollService.ts:21 | `min(x, limit)`: at most `x` and at most a finite limit; it is `x` exactly when the limit admits `x`, and the limit otherwise |
| Types.TaxBracket.DeductionOrZero | services/payrollService.ts:41 | the bracket's deduction when it has one, and 0 when it has none, as the default on line 41 gives |
| Money.Round2 | services/payrollService.ts:29 | the result is rounded from `x` (`RoundedFrom`): a whole number of cents within half a cent of `x`, half up on the magnitude and symmetric in sign; non-negative for non-negative `x` |
| Money.Round2Monotone | services/payrollService.ts:29 | cent rounding never reverses the order of two amounts |
| Money.Round2OfCents | services/payrollService.ts:111-123 | an amount already in whole cents rounds to itself |
| Money.Round2Unique | services/payrollService.ts:29 | any value rounded from `x` in the sense of `RoundedFrom` is `Round2(x)`, so that predicate determines the rounding |
| Money.RoundsTo | services/payrollService.ts:111-123 | an amount within the half-cent window around `cents/100` rounds to `cents/100` |
| Brackets.SliceSum | services/payrollService.ts:20-27 | what the INSS loop accumulates: each bracket's positive slice `min(s, limit) - previous limit` at its rate, up to the first bracket holding `s`. This function has no contract of its own; `Inss.AccumulateSlices`, `Brackets.SliceSumIsMarginalSum` and `Brackets.SliceSumNonNegative` specify it |
| Brackets.SliceSumNonNegative | services/payrollService.ts:20-27 | with non-negative rates the loop never accumulates a negative amount |
| Brackets.SliceSumIsMarginalSum | services/payrollService.ts:20-27 | on a strictly ascending table, stopping at the first bracket holding the salary gives the full marginal sum over all brackets |
| Brackets.MarginalSumVanishes | services/payrollService.ts:21-24 | brackets that start at or above the salary contribute nothing |
| Brackets.SliceMonotone | services/payrollService.ts:21-24 | with a non-negative rate, one bracket's slice is non-negative and grows with the salary |
| Brackets.MarginalSumMonotone | services/payrollService.ts:20-27 | with non-negative rates, the marginal sum is non-negative and grows with the salary |
| Brackets.FirstBracketAtLeast | services/payrollService.ts:39-44 | the index found admits `x`, and every earlier bracket does not |
| Brackets.FirstBracketIsBand | constants.ts:13-19 | with an unbounded last limit a band is always found, and the previous limit is finite and below `x` |
| Constants.InssTableWellFormed | constants.ts:4-10 | the INSS limits ascend strictly from zero, are all finite, end at the ceiling 7786.02; the rates are non-negative and ascend strictly |
| Constants.IrrfTableWellFormed | constants.ts:13-19 | the IRRF limits ascend strictly and end unbounded; the first band is exempt (rate and deduction zero); rates and deductions ascend strictly |
| Constants.FlatRates | constants.ts:24-32 | the apprentice FGTS rate is below the standard rate; the employer taxes add up to 28.8% |
| Inss.SalaryForInss | services/payrollService.ts:17 | `Math.min(gross, ceiling)`: at most both, and equal to one of them |
| Inss.InssAmount | services/payrollService.ts:17-29 | the contribution `CalculateInss` returns: a non-negative whole number of cents. `Inss.InssIsMarginalSum`, `Inss.InssBounds` and `Inss.InssMonotone` give its value |
| Inss.AccumulateSlices | services/payrollService.ts:16-27 | the bracket loop accumulates exactly the slice sum of the salary over the table |
| Inss.CalculateInss | services/payrollService.ts:15-30 | returns the rounded slice sum of `min(gross, ceiling)`, and it lies between 0 and 908.86 |
| Inss.InssIsMarginalSum | services/payrollService.ts:15-30 | the contribution equals the rounded textbook marginal sum of `min(gross, ceiling)` |
| Inss.InssMonotone | services/payrollService.ts:15-30 | a higher gross salary never pays a smaller contribution |
| Inss.InssAtCeiling | services/payrollService.ts:17 | every salary at or above the ceiling pays the same 908.86 |
| Inss.InssBounds | services/payrollService.ts:15-30 | the contribution lies between 0 and 908.86, so below ceiling × 14% |
| Inss.SliceSumAt | services/payrollService.ts:20-27 | the unrounded slice sums at 1412.00, 3000.00 and 7786.02 are 105.9, 258.8196 and 908.8618 |
| Inss.InssExamples | services/payrollService.ts:15-30 | 1412.00 pays 105.90; 3000.00 pays 258.82 |
| Irrf.TaxableBase | services/payrollService.ts:33-34 | gross less the contribution less 189.59 per dependent: never above `gross - inss`, and equal to it without dependents |
| Irrf.BandTax | services/payrollService.ts:38-44 | the first bracket admitting the base gives `base * rate - deduction`; when none admits it the result is 0 |
| Irrf.IrrfAmount | services/payrollService.ts:32-46 | the withholding `CalculateIrrf` returns: a non-negative whole number of cents. `Irrf.IrrfMatchesStatutoryTable` gives its value |
| Irrf.ApplyFirstBand | services/payrollService.ts:38-44 | the band loop yields the formula of the first band holding the base, or 0 when no band holds it |
| Irrf.CalculateIrrf | services/payrollService.ts:32-47 | returns the specified withholding, which is never negative |
| Irrf.IrrfExempt | services/payrollService.ts:36 | a taxable base of at most 2259.20 owes nothing |
| Irrf.IrrfBand | services/payrollService.ts:36-46 | above the exemption, the band chosen satisfies `limit[k-1] < base <= limit[k]`; its formula is positive, so the zero clamp never applies and the withholding is that formula rounded |
| Irrf.StatutoryBand | services/payrollService.ts:38-44 | for a base above the exemption, the band search computes the statutory piecewise formula, and it is positive |
| Irrf.IrrfMatchesStatutoryTable | services/payrollService.ts:32-47 | the withholding is the cent rounding of the statutory 2024 table applied to `gross − INSS − 189.59 × dependents` |
| Irrf.IrrfExampleLowBand | services/payrollService.ts:32-47 | gross 3000 with INSS 258.82 and no dependents withholds 36.15 |
| Irrf.IrrfExampleMiddleBand | services/payrollService.ts:32-47 | a base of exactly 3000 lands in the 15% band and withholds 68.56 |
| Payroll.FgtsRate | services/payrollService.ts:65 | 2% for apprentices, 8% otherwise |
| Payroll.TotalTransportationCost | services/payrollService.ts:70 | daily voucher value × working days with a voucher, 0 without one; never negative with non-negative inputs |
| Payroll.TransportationDiscount | services/payrollService.ts:70-72 | zero without a voucher; with one, it equals the voucher cost or 6% of gross and is at most both, so it is their minimum; with non-negative inputs it is non-negative |
| Payroll.EmployeeSide | services/payrollService.ts:67-74 | the employee figures: gross passed through; INSS, IRRF (on that INSS) and the voucher discount are `InssAmount`, `IrrfAmount` and `TransportationDiscount`; `totalDeductions` is their sum and net pay plus deductions is gross; INSS and IRRF are whole cents; net never exceeds gross with non-negative inputs |
| Payroll.UnroundedEmployerCosts | services/payrollService.ts:78-102 | the employer figures before rounding: gross salary is passed through, total provisions is the sum of the six provisions, and total cost is the direct costs plus the provisions |
| Payroll.RoundEmployer | services/payrollService.ts:109-124 | each of the 13 employer figures other than gross, health plan and life insurance is rounded from its unrounded value (`RoundedFrom`), which `Money.Round2Unique` makes `Round2` of that value; the other three pass through |
| Payroll.CalculatePayroll | services/payrollService.ts:49-126 | echoes the inputs; the employee figures are the INSS, IRRF and voucher-discount specifications; total deductions are their sum and net pay is gross less that sum, never above gross with valid inputs; the employer figures are the unrounded costs rounded to cents; health plan and life insurance are absent |
| Payroll.EmployerFgts | services/payrollService.ts:78-90 | one FGTS rate applies both to the salary deposit and to the deposit on the provisions |
| Payroll.EmployerTransportCost | services/payrollService.ts:79 | the employer pays the voucher cost the employee's share does not cover, which is never negative |
| Payroll.EmployerTaxGate | services/payrollService.ts:81-95 | without the flag the three employer-tax figures are zero; with it employer INSS is 20% of gross, third-party contributions 8.8% of gross, and the 13th taxes 28.8% of the 13th provision; 13th taxes appear only with the flag and the 13th toggle both on |
| Payroll.ProvisionGates | services/payrollService.ts:80-98 | each provision follows its toggle: a twelfth of gross for the 13th salary and for vacation, a third of vacation for the bonus, 40% of all FGTS deposits for the fine |
| Payroll.PayrollGates | services/payrollService.ts:104-125 | after rounding, every figure a toggle or the flag turns off is exactly zero |
| Payroll.EmployerCostsNonNegative | services/payrollService.ts:78-102 | with non-negative inputs no employer figure is negative and the total cost is at least the gross salary |
| Payroll.EmployerTaxSwitch | services/payrollService.ts:81-102 | turning the employer taxes on adds exactly 28.8% of (gross + 13th provision) to the unrounded total cost |
| Payroll.UnreadInputsIgnored | services/payrollService.ts:50-63 | two inputs that agree on the fields the calculation destructures give the same employee and employer figures, so the tax regime, the health-plan and life-insurance toggles and their costs change nothing |
| Payroll.ApprenticeFgtsIsQuarter | services/payrollService.ts:65 | an apprentice's FGTS deposit and FGTS on provisions are a quarter of a standard contract's |
| Payroll.DefaultScenarioEmployee | components/CalculatorForm.tsx:15-34 | the form's default inputs give INSS 258.82, IRRF 36.15, voucher discount 180.00, deductions 474.97 and net pay 2525.03 |
| Payroll.DefaultScenarioEmployer | components/CalculatorForm.tsx:15-34 | with employer taxes off, the default inputs give FGTS 240.00, voucher 13.60, meal 550.00, provisions 250 + 250 + 83.33 + 46.67 + 114.67 = 744.67, and total cost 4548.27 |

## Left out

- The React components (form, results display, pie chart, currency input, toggles and tooltips) and the CSV export are presentation, with no calculation of their own.
- JavaScript numbers are IEEE-754 doubles. The model computes on exact reals, so it ignores binary representation drift. For example, `toFixed(2)` of a double that lies just below an exact half-cent rounds down, while the model rounds the exact half up.
- The `parseFloat` applied after `toFixed` re-reads the decimal string as a double. The model keeps the exact cent value.
- The source does not compute the health-plan and life-insurance employer costs, and it maps no tax regime to the employer-tax flag. The model adds neither. `taxRegime`, `hasHealthPlan`, `hasLifeInsurance`, `healthPlanCost` and `lifeInsuranceCost` are carried in the input but never read (`UnreadInputsIgnored`).
