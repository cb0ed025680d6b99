/** The 2024 tables and flat rates the calculator reads. */
module Constants {
  import opened Types
  import opened Brackets

  /** Social-security (INSS) brackets: marginal rates up to each limit. */
  const INSS_BRACKETS: seq<TaxBracket> := [
    TaxBracket(Finite(1412.00), 0.075, None),
    TaxBracket(Finite(2666.68), 0.09, None),
    TaxBracket(Finite(4000.03), 0.12, None),
    TaxBracket(Finite(7786.02), 0.14, None)
  ]
  const INSS_CEILING: real := 7786.02

  /** Income-tax (IRRF) bands: one rate and one flat deduction per band. */
  const IRRF_BRACKETS: seq<TaxBracket> := [
    TaxBracket(Finite(2259.20), 0.0, Some(0.0)),
    TaxBracket(Finite(2826.65), 0.075, Some(169.44)),
    TaxBracket(Finite(3751.05), 0.15, Some(381.44)),
    TaxBracket(Finite(4664.68), 0.225, Some(662.77)),
    TaxBracket(Unbounded, 0.275, Some(896.00))
  ]

  const DEDUCTION_PER_DEPENDENT: real := 189.59

  const FGTS_RATE_CLT: real := 0.08
  const FGTS_RATE_APPRENTICE: real := 0.02

  const TRANSPORTATION_VOUCHER_DISCOUNT_RATE: real := 0.06

  /** Employer-side taxes, due under the presumed- or real-profit regimes. */
  const EMPLOYER_INSS_RATE: real := 0.20
  const RAT_RATE: real := 0.03
  const THIRD_PARTY_RATE: real := 0.058

  /** The INSS table climbs strictly from zero, every limit is finite, its
      last limit is the ceiling, and its rates climb strictly. */
  lemma InssTableWellFormed()
    ensures LimitsAscendFrom(INSS_BRACKETS, 0.0)
    ensures forall i :: 0 <= i < |INSS_BRACKETS| ==> INSS_BRACKETS[i].limit.Finite?
    ensures INSS_BRACKETS[|INSS_BRACKETS| - 1].limit == Finite(INSS_CEILING)
    ensures RatesNonNegative(INSS_BRACKETS) && RatesIncrease(INSS_BRACKETS)
  {
  }

  /** The IRRF table climbs strictly, ends in an unbounded band, starts with
      an exemption band (rate and deduction zero), and its rates and
      deductions climb strictly. */
  lemma IrrfTableWellFormed()
    ensures LimitsAscendFrom(IRRF_BRACKETS, 0.0)
    ensures IRRF_BRACKETS[|IRRF_BRACKETS| - 1].limit.Unbounded?
    ensures IRRF_BRACKETS[0].rate == 0.0 && IRRF_BRACKETS[0].DeductionOrZero() == 0.0
    ensures RatesIncrease(IRRF_BRACKETS) && DeductionsIncrease(IRRF_BRACKETS)
  {
  }

  /** The apprentice FGTS rate is below the standard one, and the three
      employer-side rates add up to 28.8%. */
  lemma FlatRates()
    ensures FGTS_RATE_APPRENTICE < FGTS_RATE_CLT
    ensures EMPLOYER_INSS_RATE + RAT_RATE + THIRD_PARTY_RATE == 0.288
  {
  }
}
