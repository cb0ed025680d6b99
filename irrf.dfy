/** Employee income-tax withholding (IRRF): the taxable base falls into one
    band of the table, which gives `base * rate - deduction`, never below
    zero, rounded to cents. */
module Irrf {
  import opened Types
  import opened Money
  import opened Brackets
  import opened Constants

  /** Gross salary less the social-security contribution and a fixed amount
      per dependent. */
  function TaxableBase(grossSalary: real, inss: real, dependents: nat): (base: real)
    ensures base <= grossSalary - inss
    ensures dependents == 0 ==> base == grossSalary - inss
  {
    grossSalary - inss - dependents as real * DEDUCTION_PER_DEPENDENT
  }

  /** What the band search leaves in `irrf`: the formula of the first band
      holding `base`, or 0 when no band holds it. */
  function BandTax(brackets: seq<TaxBracket>, base: real): (t: real)
    ensures (forall j :: 0 <= j < |brackets| ==> !brackets[j].limit.Admits(base)) ==> t == 0.0
    ensures forall k :: 0 <= k < |brackets| && brackets[k].limit.Admits(base)
                        && (forall j :: 0 <= j < k ==> !brackets[j].limit.Admits(base))
                        ==> t == base * brackets[k].rate - brackets[k].DeductionOrZero()
  {
    var k := FirstBracketAtLeast(brackets, base);
    if k < |brackets| then base * brackets[k].rate - brackets[k].DeductionOrZero() else 0.0
  }

  /** The withholding `CalculateIrrf` computes. */
  function IrrfAmount(grossSalary: real, inss: real, dependents: nat): (irrf: real)
    ensures IsCents(irrf)
    ensures irrf >= 0.0
  {
    var base := TaxableBase(grossSalary, inss, dependents);
    if IRRF_BRACKETS[0].limit.Admits(base) then 0.0
    else
      var irrf := BandTax(IRRF_BRACKETS, base);
      Round2(if irrf > 0.0 then irrf else 0.0)
  }

  /** The band search: scans `brackets` in order and applies the first one
      whose limit is at least `base`. */
  method ApplyFirstBand(brackets: seq<TaxBracket>, base: real) returns (irrf: real)
    ensures irrf == BandTax(brackets, base)
  {
    irrf := 0.0;
    var i := 0;
    while i < |brackets|
      invariant 0 <= i <= |brackets|
      invariant forall j :: 0 <= j < i ==> !brackets[j].limit.Admits(base)
      invariant irrf == 0.0
    {
      var bracket := brackets[i];
      if bracket.limit.Admits(base) {
        irrf := base * bracket.rate - bracket.DeductionOrZero();
        break;
      }
      i := i + 1;
    }
  }

  /** The withholding: zero in the exemption band, otherwise the band
      formula clamped at zero and rounded to cents. */
  method CalculateIrrf(grossSalary: real, inss: real, dependents: nat) returns (irrf: real)
    ensures irrf == IrrfAmount(grossSalary, inss, dependents)
    ensures irrf >= 0.0
  {
    var dependentDeduction := dependents as real * DEDUCTION_PER_DEPENDENT;
    var baseSalary := grossSalary - inss - dependentDeduction;
    if IRRF_BRACKETS[0].limit.Admits(baseSalary) {
      return 0.0;
    }
    irrf := ApplyFirstBand(IRRF_BRACKETS, baseSalary);
    irrf := Round2(if irrf > 0.0 then irrf else 0.0);
  }

  /** A base in the exemption band (at most 2259.20) owes nothing. */
  lemma IrrfExempt(grossSalary: real, inss: real, dependents: nat)
    requires TaxableBase(grossSalary, inss, dependents) <= 2259.20
    ensures IrrfAmount(grossSalary, inss, dependents) == 0.0
  {
  }

  /** Above the exemption band some band always holds the base (the last one
      is unbounded): the band `k` with `limit[k-1] < base <= limit[k]`. Its
      formula `base * rate[k] - deduction[k]` is positive there, so the clamp
      at zero never takes effect and the withholding is that formula rounded. */
  lemma IrrfBand(grossSalary: real, inss: real, dependents: nat)
    requires TaxableBase(grossSalary, inss, dependents) > 2259.20
    ensures var base := TaxableBase(grossSalary, inss, dependents);
      var k := FirstBracketAtLeast(IRRF_BRACKETS, base);
      && 1 <= k < |IRRF_BRACKETS|
      && IRRF_BRACKETS[k - 1].limit.value < base
      && IRRF_BRACKETS[k].limit.Admits(base)
    ensures var base := TaxableBase(grossSalary, inss, dependents);
      && BandTax(IRRF_BRACKETS, base) > 0.0
      && IrrfAmount(grossSalary, inss, dependents) == Round2(BandTax(IRRF_BRACKETS, base))
  {
    var base := TaxableBase(grossSalary, inss, dependents);
    FirstBracketIsBand(IRRF_BRACKETS, base);
    StatutoryBand(base);
  }

  /** The 2024 income-tax table as the law writes it, band by band. */
  function StatutoryIrrf(base: real): real {
    if base <= 2259.20 then 0.0
    else if base <= 2826.65 then base * 0.075 - 169.44
    else if base <= 3751.05 then base * 0.15 - 381.44
    else if base <= 4664.68 then base * 0.225 - 662.77
    else base * 0.275 - 896.00
  }

  /** Above the exemption band, the band the search picks is the statutory
      band and its formula is positive. */
  lemma StatutoryBand(base: real)
    requires base > 2259.20
    ensures BandTax(IRRF_BRACKETS, base) == StatutoryIrrf(base) > 0.0
  {
    var bs := IRRF_BRACKETS;
    var k := FirstBracketAtLeast(bs, base);
    FirstBracketIsBand(bs, base);
    assert !bs[0].limit.Admits(base);
    assert bs[4].limit.Admits(base);
    if base <= 2826.65 {
      assert bs[1].limit.Admits(base);
      assert k == 1;
    } else if base <= 3751.05 {
      assert !bs[1].limit.Admits(base) && bs[2].limit.Admits(base);
      assert k == 2;
    } else if base <= 4664.68 {
      assert !bs[1].limit.Admits(base) && !bs[2].limit.Admits(base) && bs[3].limit.Admits(base);
      assert k == 3;
    } else {
      assert !bs[1].limit.Admits(base) && !bs[2].limit.Admits(base) && !bs[3].limit.Admits(base);
      assert k == 4;
    }
  }

  /** The withholding is the cent rounding of the statutory table applied to
      the taxable base. */
  lemma IrrfMatchesStatutoryTable(grossSalary: real, inss: real, dependents: nat)
    ensures IrrfAmount(grossSalary, inss, dependents)
            == Round2(StatutoryIrrf(TaxableBase(grossSalary, inss, dependents)))
  {
    var base := TaxableBase(grossSalary, inss, dependents);
    if base <= 2259.20 {
      assert IsCents(0.0);
      Round2OfCents(0.0);
    } else {
      StatutoryBand(base);
    }
  }

  /** Worked example: gross 3000 with no dependents and the contribution
      258.82 leaves a base of 2741.18 in the 7.5% band, owing
      `205.5885 - 169.44 = 36.1485`, rounded to 36.15. */
  lemma IrrfExampleLowBand()
    ensures IrrfAmount(3000.00, 258.82, 0) == 36.15
  {
    assert TaxableBase(3000.00, 258.82, 0) == 2741.18;
    IrrfMatchesStatutoryTable(3000.00, 258.82, 0);
    assert StatutoryIrrf(2741.18) == 36.1485;
    assert IsCents(36.15) by { assert 36.15 * 100.0 == 3615.0; }
    Round2Unique(36.1485, 36.15);
  }

  /** Worked example: a base of exactly 3000 lands in the 15% band and owes
      `450 - 381.44 = 68.56`. */
  lemma IrrfExampleMiddleBand()
    ensures IrrfAmount(3000.00, 0.0, 0) == 68.56
  {
    assert TaxableBase(3000.00, 0.0, 0) == 3000.00;
    IrrfMatchesStatutoryTable(3000.00, 0.0, 0);
    assert StatutoryIrrf(3000.00) == 68.56;
    assert IsCents(68.56) by { assert 68.56 * 100.0 == 6856.0; }
    Round2OfCents(68.56);
  }
}
