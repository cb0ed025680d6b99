/** Employee social-security withholding (INSS): marginal brackets over the
    salary clamped at the contribution ceiling, rounded to cents. */
module Inss {
  import opened Types
  import opened Money
  import opened Brackets
  import opened Constants

  /** The salary the contribution is computed on: `min(gross, ceiling)`. */
  function SalaryForInss(grossSalary: real): (s: real)
    ensures s <= grossSalary && s <= INSS_CEILING
    ensures s == grossSalary || s == INSS_CEILING
  {
    if grossSalary < INSS_CEILING then grossSalary else INSS_CEILING
  }

  /** The contribution the bracket loop computes for `grossSalary`. */
  function InssAmount(grossSalary: real): (a: real)
    ensures IsCents(a)
    ensures a >= 0.0
  {
    InssTableWellFormed();
    SliceSumNonNegative(INSS_BRACKETS, 0.0, SalaryForInss(grossSalary));
    Round2(SliceSum(INSS_BRACKETS, 0.0, SalaryForInss(grossSalary)))
  }

  /** The bracket loop: walks `brackets` in order from a previous limit of
      zero, accumulates each positive slice of `salary` at its bracket's rate
      and stops at the first bracket holding `salary`. (`lastLimit` is only
      read by the next iteration, so it is updated after the exit test.) */
  method AccumulateSlices(brackets: seq<TaxBracket>, salary: real) returns (inss: real)
    ensures inss == SliceSum(brackets, 0.0, salary)
  {
    inss := 0.0;
    var lastLimit := 0.0;
    var rest := brackets;
    while rest != []
      invariant inss + SliceSum(rest, lastLimit, salary) == SliceSum(brackets, 0.0, salary)
      decreases |rest|
    {
      var bracket := rest[0];
      var taxableAmount := bracket.limit.Min(salary) - lastLimit;
      if taxableAmount > 0.0 {
        inss := inss + taxableAmount * bracket.rate;
      }
      if bracket.limit.Admits(salary) {
        break;
      }
      lastLimit := bracket.limit.value;
      rest := rest[1..];
    }
  }

  /** The contribution: the salary clamped at the ceiling, run through the
      bracket loop over the INSS table, rounded to cents. */
  method CalculateInss(grossSalary: real) returns (inss: real)
    ensures inss == InssAmount(grossSalary)
    ensures 0.0 <= inss <= 908.86
  {
    var salaryForInss := SalaryForInss(grossSalary);
    inss := AccumulateSlices(INSS_BRACKETS, salaryForInss);
    inss := Round2(inss);
    InssBounds(grossSalary);
  }

  /** The contribution is the rounded textbook marginal sum
      `sum_i rate_i * max(0, min(s, limit_i) - limit_(i-1))` with
      `s = min(gross, ceiling)`. */
  lemma InssIsMarginalSum(grossSalary: real)
    ensures InssAmount(grossSalary)
            == Round2(MarginalSum(INSS_BRACKETS, 0.0, SalaryForInss(grossSalary)))
  {
    InssTableWellFormed();
    SliceSumIsMarginalSum(INSS_BRACKETS, 0.0, SalaryForInss(grossSalary));
  }

  /** A higher salary never pays less contribution. */
  lemma InssMonotone(g1: real, g2: real)
    requires g1 <= g2
    ensures InssAmount(g1) <= InssAmount(g2)
  {
    InssIsMarginalSum(g1);
    InssIsMarginalSum(g2);
    InssTableWellFormed();
    MarginalSumMonotone(INSS_BRACKETS, 0.0, SalaryForInss(g1), SalaryForInss(g2));
    Round2Monotone(MarginalSum(INSS_BRACKETS, 0.0, SalaryForInss(g1)),
                   MarginalSum(INSS_BRACKETS, 0.0, SalaryForInss(g2)));
  }

  /** At or above the ceiling the contribution is the same for every salary:
      `Round2(908.8618) = 908.86`. */
  lemma InssAtCeiling(grossSalary: real)
    requires grossSalary >= INSS_CEILING
    ensures InssAmount(grossSalary) == 908.86
  {
    assert SalaryForInss(grossSalary) == 7786.02;
    assert SliceSum(INSS_BRACKETS, 0.0, 7786.02) == 908.8618 by {
      SliceSumAt(7786.02);
    }
    assert IsCents(908.86) by {
      assert 908.86 * 100.0 == 90886.0;
    }
    Round2Unique(908.8618, 908.86);
  }

  /** The contribution is never negative, never above its value at the
      ceiling, and so never above `ceiling * highest rate`. */
  lemma InssBounds(grossSalary: real)
    ensures 0.0 <= InssAmount(grossSalary) <= 908.86
    ensures InssAmount(grossSalary) <= INSS_CEILING * 0.14
  {
    InssIsMarginalSum(grossSalary);
    InssTableWellFormed();
    MarginalSumMonotone(INSS_BRACKETS, 0.0, SalaryForInss(grossSalary), SalaryForInss(grossSalary));
    var top := if grossSalary < INSS_CEILING then INSS_CEILING else grossSalary;
    InssMonotone(grossSalary, top);
    InssAtCeiling(top);
  }

  /** The bracket sum at a few salaries, written out bracket by bracket. */
  lemma SliceSumAt(s: real)
    requires s == 1412.00 || s == 3000.00 || s == 7786.02
    ensures s == 1412.00 ==> SliceSum(INSS_BRACKETS, 0.0, s) == 105.9
    ensures s == 3000.00 ==> SliceSum(INSS_BRACKETS, 0.0, s) == 258.8196
    ensures s == 7786.02 ==> SliceSum(INSS_BRACKETS, 0.0, s) == 908.8618
  {
    var bs := INSS_BRACKETS;
    assert bs[1..] == [bs[1], bs[2], bs[3]];
    assert bs[1..][1..] == [bs[2], bs[3]];
    assert bs[1..][1..][1..] == [bs[3]];
    assert bs[1..][1..][1..][1..] == [];
  }

  /** Worked examples: exactly the first limit pays `1412 * 7.5% = 105.90`;
      3000 pays `105.90 + 112.9212 + 39.9984`, rounded to 258.82. */
  lemma InssExamples()
    ensures InssAmount(1412.00) == 105.90
    ensures InssAmount(3000.00) == 258.82
  {
    SliceSumAt(1412.00);
    SliceSumAt(3000.00);
    assert IsCents(105.90) by { assert 105.90 * 100.0 == 10590.0; }
    assert IsCents(258.82) by { assert 258.82 * 100.0 == 25882.0; }
    Round2Unique(105.9, 105.90);
    Round2Unique(258.8196, 258.82);
  }
}
