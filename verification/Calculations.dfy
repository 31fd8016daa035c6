/**
 * The computation part of calculateTax in js/calculations.js: self-employment
 * tax, AGI, the deduction, federal, state and NYC tax, the balances, the
 * effective rate, the marginal rate and the guidance call. The form fields
 * arrive already parsed into a TaxInputs record.
 */
module Calculations {
  import opened TaxData
  import opened Brackets
  import opened Deductions
  import opened Guidance

  /** The parsed form of the calculator. */
  datatype TaxInputs = TaxInputs(
    filingStatus: FilingStatus,
    state: StateCode,
    isNYCResident: bool,
    grossIncome: real,
    selfEmploymentIncome: real,
    businessExpenses: real,
    otherIncome: real,
    preTax: PreTax,
    deductionType: DeductionType,
    itemized: ItemizedInputs,
    federalWithheld: real,
    stateWithheld: real,
    cityWithheld: real)

  /** The values calculateTax computes before it renders them. */
  datatype TaxResult = TaxResult(
    netSelfEmploymentIncome: real,
    seTax: real,
    seDeduction: real,
    totalIncome: real,
    agi: real,
    deduction: real,
    itemizedBreakdown: Option<ItemizedBreakdown>,
    federalTaxableIncome: real,
    federalTax: real,
    stateTaxableIncome: real,
    stateTax: real,
    stateBreakdown: seq<Slice>,
    nycTax: real,
    totalFederalTax: real,
    federalBalance: real,
    stateBalance: real,
    nycBalance: real,
    totalBalance: real,
    totalTax: real,
    effectiveRate: real,
    marginalRate: real)

  // ------------------------------------------------------------------
  // Self-employment tax
  // ------------------------------------------------------------------

  /**
   * The earnings subject to Social Security tax: the net earnings, capped by
   * what W-2 wages leave of the wage base.
   */
  function SocialSecurityTaxable(netEarnings: real, wageBase: real, grossIncome: real): (t: real)
    ensures t <= netEarnings && t <= MaxReal(0.0, wageBase - grossIncome)
    ensures t == netEarnings || t == MaxReal(0.0, wageBase - grossIncome)
  {
    MinReal(netEarnings, MaxReal(0.0, wageBase - grossIncome))
  }

  /** The additional-Medicare threshold: the married one only for the `married` status. */
  function AdditionalMedicareThreshold(c: SEConstants, status: FilingStatus): real {
    if status == Married then c.additionalMedicareThresholdMarried else c.additionalMedicareThresholdSingle
  }

  /**
   * Self-employment tax on `netSE`: Social Security on the capped share of
   * 92.35% of it, Medicare on all of that, and the additional Medicare tax
   * on earned income above the threshold; nothing without SE income.
   */
  function SETax(c: SEConstants, status: FilingStatus, grossIncome: real, netSE: real): (t: real)
    ensures netSE <= 0.0 ==> t == 0.0
    // Medicare has no wage base: at least its rate on all net earnings is owed.
    ensures (netSE > 0.0 && 0.0 <= c.netEarningsMultiplier && 0.0 <= c.socialSecurityRate
             && 0.0 <= c.additionalMedicareRate) ==> netSE * c.netEarningsMultiplier * c.medicareRate <= t
  {
    if netSE > 0.0 then
      var netEarnings := netSE * c.netEarningsMultiplier;
      var ss := SocialSecurityTaxable(netEarnings, c.socialSecurityWageBase, grossIncome);
      var excess := MaxReal(0.0, grossIncome + netEarnings - AdditionalMedicareThreshold(c, status));
      PartsNonNegative(c, netSE, netEarnings, ss, excess);
      ss * c.socialSecurityRate + netEarnings * c.medicareRate + excess * c.additionalMedicareRate
    else
      0.0
  }

  /** With non-negative rates the Social Security and additional-Medicare parts are never negative. */
  lemma PartsNonNegative(c: SEConstants, netSE: real, netEarnings: real, ss: real, excess: real)
    requires netEarnings == netSE * c.netEarningsMultiplier && 0.0 <= excess
    requires ss == netEarnings || 0.0 <= ss
    ensures (0.0 < netSE && 0.0 <= c.netEarningsMultiplier && 0.0 <= c.socialSecurityRate
             && 0.0 <= c.additionalMedicareRate) ==> 0.0 <= ss * c.socialSecurityRate && 0.0 <= excess * c.additionalMedicareRate
  {
    if 0.0 < netSE && 0.0 <= c.netEarningsMultiplier && 0.0 <= c.socialSecurityRate && 0.0 <= c.additionalMedicareRate {
      ProductNonNegative(netSE, c.netEarningsMultiplier);
      ProductNonNegative(ss, c.socialSecurityRate);
      ProductNonNegative(excess, c.additionalMedicareRate);
    }
  }

  /** SETax on positive net SE income, written out as the three taxes calculateTax adds. */
  lemma SETaxPositive(c: SEConstants, status: FilingStatus, grossIncome: real, netSE: real)
    requires netSE > 0.0
    ensures SETax(c, status, grossIncome, netSE)
      == MinReal(netSE * c.netEarningsMultiplier, MaxReal(0.0, c.socialSecurityWageBase - grossIncome)) * c.socialSecurityRate
       + netSE * c.netEarningsMultiplier * c.medicareRate
       + MaxReal(0.0, grossIncome + netSE * c.netEarningsMultiplier
           - (if status == Married then c.additionalMedicareThresholdMarried else c.additionalMedicareThresholdSingle))
         * c.additionalMedicareRate
  {
  }

  /** The self-employment block of calculateTax: the tax and its deductible half. */
  method SelfEmploymentTax(year: int, status: FilingStatus, grossIncome: real, netSE: real)
    returns (seTax: real, seDeduction: real)
    requires SupportedYear(year)
    ensures seTax == SETax(SETaxConstants(year), status, grossIncome, netSE)
    ensures seDeduction * 2.0 == seTax
    ensures netSE <= 0.0 ==> seTax == 0.0 && seDeduction == 0.0
  {
    seTax := 0.0;
    seDeduction := 0.0;
    var c := SETaxConstants(year);
    if netSE > 0.0 {
      var netEarnings := netSE * c.netEarningsMultiplier;
      var ssWageBase := c.socialSecurityWageBase;
      var remainingSSBase := MaxReal(0.0, ssWageBase - grossIncome);
      var ssTaxableEarnings := MinReal(netEarnings, remainingSSBase);
      var ssTax := ssTaxableEarnings * c.socialSecurityRate;
      var medicareTax := netEarnings * c.medicareRate;
      var threshold := if status == Married then c.additionalMedicareThresholdMarried
                       else c.additionalMedicareThresholdSingle;
      var totalEarnedIncome := grossIncome + netEarnings;
      var additionalMedicareTax := MaxReal(0.0, totalEarnedIncome - threshold) * c.additionalMedicareRate;
      seTax := ssTax + medicareTax + additionalMedicareTax;
      SETaxPositive(c, status, grossIncome, netSE);
      seDeduction := seTax / 2.0;
    }
  }

  /** a <= b scales to a * x <= b * x for x >= 0. */
  lemma ScaleBound(a: real, b: real, x: real)
    requires a <= b && 0.0 <= x
    ensures a * x <= b * x
  {
    ProductNonNegative(b - a, x);
  }

  /**
   * With non-negative wages, positive SE income is taxed, and at most 15%
   * of it plus 0.9% of the wages (12.4% + 2.9% + 0.9% of 92.35%).
   */
  lemma SETaxBounds(year: int, status: FilingStatus, grossIncome: real, netSE: real)
    requires SupportedYear(year) && grossIncome >= 0.0 && netSE > 0.0
    ensures 0.0 < SETax(SETaxConstants(year), status, grossIncome, netSE)
    ensures SETax(SETaxConstants(year), status, grossIncome, netSE) <= 0.15 * netSE + 0.009 * grossIncome
  {
    var c := SETaxConstants(year);
    SEConstantsShape(year);
    var netEarnings := netSE * 0.9235;
    var ss := SocialSecurityTaxable(netEarnings, c.socialSecurityWageBase, grossIncome);
    var threshold := AdditionalMedicareThreshold(c, status);
    var excess := MaxReal(0.0, grossIncome + netEarnings - threshold);
    assert 0.0 <= ss <= netEarnings;
    assert 0.0 <= excess <= grossIncome + netEarnings;
    assert SETax(c, status, grossIncome, netSE) == ss * 0.124 + netEarnings * 0.029 + excess * 0.009;
  }

  /** W-2 wages at or above the wage base leave no Social Security tax on SE earnings. */
  lemma WagesAboveWageBase(year: int, grossIncome: real, netEarnings: real)
    requires SupportedYear(year) && grossIncome >= SETaxConstants(year).socialSecurityWageBase
    requires netEarnings >= 0.0
    ensures SocialSecurityTaxable(netEarnings, SETaxConstants(year).socialSecurityWageBase, grossIncome) == 0.0
  {
  }

  /** A worked case: 100000 of 2025 SE income, no wages, single. */
  lemma SETaxExample()
    ensures SETax(SETaxConstants(2025), Single, 0.0, 100000.0) == 14129.55
  {
    var c := SETaxConstants(2025);
    assert 100000.0 * c.netEarningsMultiplier == 92350.0;
    assert SocialSecurityTaxable(92350.0, c.socialSecurityWageBase, 0.0) == 92350.0;
  }

  /** A schedule's tax is non-negative and at most `top` times the positive part of the income. */
  lemma TaxWithinTopRate(s: Schedule, income: real, top: real)
    requires WellFormed(s) && TopRate(s) <= top
    ensures 0.0 <= BracketTax(income, s).tax <= top * MaxReal(0.0, income)
  {
    if income >= 0.0 {
      BracketTaxBounds(s, income);
      ScaleBound(TopRate(s), top, income);
    }
  }

  /** The federal tax is at most 37% of the taxable income. */
  lemma FederalTaxBound(year: int, status: FilingStatus, income: real)
    requires SupportedYear(year)
    ensures 0.0 <= BracketTax(income, FederalBrackets(year, status)).tax <= 0.37 * MaxReal(0.0, income)
  {
    FederalScheduleShape(year, status);
    TaxWithinTopRate(FederalBrackets(year, status), income, 0.37);
  }

  /** The state tax is at most 10.9% of the state taxable income. */
  lemma StateTaxBound(state: StateCode, key: FilingStatus, income: real)
    requires IsStateKey(key)
    ensures 0.0 <= BracketTax(income, StateBrackets(state, key)).tax <= 0.109 * MaxReal(0.0, income)
  {
    StateScheduleShape(state, key);
    TaxWithinTopRate(StateBrackets(state, key), income, 0.109);
  }

  /** The city tax is at most the top city rate times the state taxable income. */
  lemma NycTaxBound(key: FilingStatus, income: real)
    requires IsStateKey(key)
    ensures 0.0 <= BracketTax(income, NycBrackets(key)).tax <= NycSurcharge * MaxReal(0.0, income)
  {
    NycScheduleShape(key);
    TaxWithinTopRate(NycBrackets(key), income, NycSurcharge);
  }

  /** The arithmetic of TaxesWithinIncome: the four bounded taxes add up to less than the total income. */
  lemma TaxShare(fed: real, se: real, st: real, nyc: real, fti: real, stBase: real, agi: real, total: real,
                 netSE: real, gross: real)
    requires 0.0 < total && 0.0 <= netSE && 0.0 <= gross && gross + netSE <= total && agi <= total
    requires 0.0 <= fti <= MaxReal(0.0, agi) && 0.0 <= fed <= 0.37 * MaxReal(0.0, fti)
    requires stBase <= MaxReal(0.0, agi) && 0.0 <= st <= 0.109 * MaxReal(0.0, stBase)
    requires 0.0 <= nyc <= NycSurcharge * MaxReal(0.0, stBase)
    requires 0.0 <= se <= 0.15 * netSE + 0.009 * gross
    ensures 0.0 <= fed + se + st + nyc < total
  {
  }

  /** A share below the whole is a percentage below 100. */
  lemma PercentBelowHundred(part: real, whole: real)
    requires 0.0 <= part < whole
    ensures 0.0 <= EffectiveRate(part, whole) < 100.0
  {
    assert part / whole < 1.0;
  }

  // ------------------------------------------------------------------
  // calculateTax
  // ------------------------------------------------------------------

  /** The effective rate: total tax as a percentage of total income, 0 without income. */
  function EffectiveRate(totalTax: real, totalIncome: real): (rate: real)
    ensures totalIncome <= 0.0 ==> rate == 0.0
    ensures totalIncome > 0.0 ==> rate * totalIncome == totalTax * 100.0
  {
    if totalIncome > 0.0 then totalTax / totalIncome * 100.0 else 0.0
  }

  /** The guidance inputs calculateTax assembles from the form and its results. */
  function GuidanceInputsOf(year: int, t: TaxInputs, r: TaxResult): GuidanceInputs {
    GuidanceInputs(year, t.filingStatus, t.state, t.isNYCResident, r.totalIncome, t.grossIncome,
                   r.netSelfEmploymentIncome, r.agi, t.preTax, r.federalTax, t.federalWithheld, r.seTax,
                   r.marginalRate, t.deductionType)
  }

  /** Income figures that a form with no negative entries produces. */
  predicate NonNegativeIncome(t: TaxInputs) {
    t.grossIncome >= 0.0 && t.otherIncome >= 0.0 && PreTaxTotal(t.preTax) >= 0.0
  }

  /**
   * The deduction calculateTax applies: the standard one, or the itemized
   * total raised to the standard one when that is larger.
   */
  method ChooseDeduction(year: int, status: FilingStatus, deductionType: DeductionType, agi: real, itemized: ItemizedInputs)
    returns (deduction: real, itemizedBreakdown: Option<ItemizedBreakdown>)
    requires SupportedYear(year)
    ensures deduction >= StandardDeduction(year, status)
    ensures deductionType == Standard ==> deduction == StandardDeduction(year, status)
    ensures deductionType == Standard <==> itemizedBreakdown.None?
    ensures deductionType == Itemized ==>
      deduction == MaxReal(ItemizedDeductions(agi, itemized).total, StandardDeduction(year, status))
      && itemizedBreakdown == Some(ItemizedDeductions(agi, itemized).breakdown)
  {
    itemizedBreakdown := None;
    var standardDeduction := StandardDeduction(year, status);
    if deductionType == Standard {
      deduction := standardDeduction;
    } else {
      var result := ItemizedDeductions(agi, itemized);
      itemizedBreakdown := Some(result.breakdown);
      deduction := result.total;
      if standardDeduction > deduction {
        deduction := standardDeduction;
      }
    }
  }

  /**
   * The state tax on AGI (New Jersey) or on AGI less the New York standard
   * deduction, and the New York City tax on the same taxable income for a
   * city resident.
   */
  method StateTaxes(year: int, status: FilingStatus, state: StateCode, isNYCResident: bool, agi: real)
    returns (stateTaxableIncome: real, stateTax: real, stateBreakdown: seq<Slice>, nycTax: real)
    requires SupportedYear(year)
    ensures state == NJ ==> stateTaxableIncome == agi
    ensures state == NY ==> stateTaxableIncome == MaxReal(0.0, agi - NyStandardDeduction(year, status))
    ensures BracketOutcome(stateTax, stateBreakdown)
      == BracketTax(stateTaxableIncome, StateBrackets(state, FilingStatusKey(status)))
    ensures !isNYCResident ==> nycTax == 0.0
    ensures isNYCResident ==> nycTax == BracketTax(stateTaxableIncome, NycBrackets(FilingStatusKey(status))).tax
  {
    var stateFilingKey := FilingStatusKey(status);
    if state == NJ {
      stateTaxableIncome := agi;
      stateTax, stateBreakdown := CalculateBracketTax(stateTaxableIncome, NjBrackets(stateFilingKey));
    } else {
      var nyDeduction := NyStandardDeduction(year, status);
      stateTaxableIncome := MaxReal(0.0, agi - nyDeduction);
      stateTax, stateBreakdown := CalculateBracketTax(stateTaxableIncome, NyBrackets(stateFilingKey));
    }
    nycTax := 0.0;
    if isNYCResident {
      var nycBreakdown;
      nycTax, nycBreakdown := CalculateBracketTax(stateTaxableIncome, NycBrackets(stateFilingKey));
    }
  }

  /**
   * calculateTax, from the parsed form to the figures it renders and the
   * guidance it generates.
   */
  method CalculateTax(year: int, t: TaxInputs) returns (r: TaxResult, guidance: Report, totalPotentialSavings: int)
    requires SupportedYear(year)
    // self-employment tax and AGI
    ensures r.netSelfEmploymentIncome == MaxReal(0.0, t.selfEmploymentIncome - t.businessExpenses)
    ensures r.seTax == SETax(SETaxConstants(year), t.filingStatus, t.grossIncome, r.netSelfEmploymentIncome)
    ensures r.seDeduction * 2.0 == r.seTax
    ensures r.netSelfEmploymentIncome == 0.0 ==> r.seTax == 0.0 && r.seDeduction == 0.0
    ensures r.totalIncome == t.grossIncome + r.netSelfEmploymentIncome + t.otherIncome
    ensures r.agi == r.totalIncome - PreTaxTotal(t.preTax) - r.seDeduction
    // the deduction: never below the standard one, the standard one when chosen
    ensures r.deduction >= StandardDeduction(year, t.filingStatus)
    ensures t.deductionType == Standard ==> r.deduction == StandardDeduction(year, t.filingStatus)
    ensures t.deductionType == Standard <==> r.itemizedBreakdown.None?
    ensures t.deductionType == Itemized ==>
      r.deduction == MaxReal(ItemizedDeductions(r.agi, t.itemized).total, StandardDeduction(year, t.filingStatus))
      && r.itemizedBreakdown == Some(ItemizedDeductions(r.agi, t.itemized).breakdown)
    // taxable incomes and taxes
    ensures r.federalTaxableIncome >= 0.0 && r.federalTaxableIncome >= r.agi - r.deduction
    ensures r.federalTaxableIncome == 0.0 || r.federalTaxableIncome == r.agi - r.deduction
    ensures r.federalTax == BracketTax(r.federalTaxableIncome, FederalBrackets(year, t.filingStatus)).tax
    ensures t.state == NJ ==> r.stateTaxableIncome == r.agi
    ensures t.state == NY ==> r.stateTaxableIncome == MaxReal(0.0, r.agi - NyStandardDeduction(year, t.filingStatus))
    ensures BracketOutcome(r.stateTax, r.stateBreakdown)
      == BracketTax(r.stateTaxableIncome, StateBrackets(t.state, FilingStatusKey(t.filingStatus)))
    ensures !t.isNYCResident ==> r.nycTax == 0.0
    ensures t.isNYCResident ==> r.nycTax == BracketTax(r.stateTaxableIncome, NycBrackets(FilingStatusKey(t.filingStatus))).tax
    // balances and rates
    ensures r.totalFederalTax == r.federalTax + r.seTax
    ensures r.federalBalance == t.federalWithheld - r.totalFederalTax
    ensures r.stateBalance == t.stateWithheld - r.stateTax && r.nycBalance == t.cityWithheld - r.nycTax
    ensures r.totalBalance == r.federalBalance + r.stateBalance + (if t.isNYCResident then r.nycBalance else 0.0)
    ensures r.totalTax == r.totalFederalTax + r.stateTax + r.nycTax
    ensures r.effectiveRate == EffectiveRate(r.totalTax, r.totalIncome)
    ensures NonNegativeIncome(t) ==> 0.0 <= r.effectiveRate < 100.0
    ensures r.marginalRate == MarginalRate(FederalBrackets(year, t.filingStatus), r.federalTaxableIncome)
    ensures 0.10 <= r.marginalRate <= 0.37
    // guidance
    ensures guidance == Expected(GuidanceInputsOf(year, t, r))
    ensures totalPotentialSavings == ExpectedSavings(GuidanceInputsOf(year, t, r))
  {
    var status := t.filingStatus;
    var netSelfEmploymentIncome := MaxReal(0.0, t.selfEmploymentIncome - t.businessExpenses);
    var preTaxDeductions := PreTaxTotal(t.preTax);
    var seTax, seDeduction := SelfEmploymentTax(year, status, t.grossIncome, netSelfEmploymentIncome);

    var totalIncome := t.grossIncome + netSelfEmploymentIncome + t.otherIncome;
    var agi := totalIncome - preTaxDeductions - seDeduction;

    var deduction, itemizedBreakdown := ChooseDeduction(year, status, t.deductionType, agi, t.itemized);

    var federalTaxableIncome := MaxReal(0.0, agi - deduction);
    var federalTax, federalBreakdown := CalculateBracketTax(federalTaxableIncome, FederalBrackets(year, status));

    var stateTaxableIncome, stateTax, stateBreakdown, nycTax := StateTaxes(year, status, t.state, t.isNYCResident, agi);

    var totalFederalTax := federalTax + seTax;
    var federalBalance := t.federalWithheld - totalFederalTax;
    var stateBalance := t.stateWithheld - stateTax;
    var nycBalance := t.cityWithheld - nycTax;
    var totalBalance := federalBalance + stateBalance + (if t.isNYCResident then nycBalance else 0.0);

    var totalTax := totalFederalTax + stateTax + nycTax;
    var effectiveRate := EffectiveRate(totalTax, totalIncome);

    var marginalRate := FederalMarginalRate(year, federalTaxableIncome, status);

    r := TaxResult(
      netSelfEmploymentIncome, seTax, seDeduction, totalIncome, agi, deduction, itemizedBreakdown,
      federalTaxableIncome, federalTax, stateTaxableIncome, stateTax, stateBreakdown, nycTax,
      totalFederalTax, federalBalance, stateBalance, nycBalance, totalBalance, totalTax, effectiveRate,
      marginalRate);
    if NonNegativeIncome(t) {
      TaxesWithinIncome(year, t, r);
    }
    guidance, totalPotentialSavings := GenerateGuidance(GuidanceInputsOf(year, t, r));
  }

  /**
   * With no negative income entries the taxes stay below the total income:
   * at most 37% federal, 10.9% state and 3.876% city on income up to the
   * total, plus at most 15.9% of it as SE tax.
   */
  lemma TaxesWithinIncome(year: int, t: TaxInputs, r: TaxResult)
    requires SupportedYear(year) && NonNegativeIncome(t)
    requires r.netSelfEmploymentIncome == MaxReal(0.0, t.selfEmploymentIncome - t.businessExpenses)
    requires r.seTax == SETax(SETaxConstants(year), t.filingStatus, t.grossIncome, r.netSelfEmploymentIncome)
    requires r.seDeduction * 2.0 == r.seTax
    requires r.totalIncome == t.grossIncome + r.netSelfEmploymentIncome + t.otherIncome
    requires r.agi == r.totalIncome - PreTaxTotal(t.preTax) - r.seDeduction
    requires r.deduction >= StandardDeduction(year, t.filingStatus)
    requires r.federalTaxableIncome == MaxReal(0.0, r.agi - r.deduction)
    requires r.federalTax == BracketTax(r.federalTaxableIncome, FederalBrackets(year, t.filingStatus)).tax
    requires r.stateTaxableIncome <= MaxReal(0.0, r.agi)
    requires r.stateTax == BracketTax(r.stateTaxableIncome, StateBrackets(t.state, FilingStatusKey(t.filingStatus))).tax
    requires r.nycTax == 0.0
      || r.nycTax == BracketTax(r.stateTaxableIncome, NycBrackets(FilingStatusKey(t.filingStatus))).tax
    requires r.totalTax == r.federalTax + r.seTax + r.stateTax + r.nycTax
    requires r.effectiveRate == EffectiveRate(r.totalTax, r.totalIncome)
    ensures 0.0 <= r.effectiveRate < 100.0
  {
    var key := FilingStatusKey(t.filingStatus);
    var seBound := 0.15 * r.netSelfEmploymentIncome + 0.009 * t.grossIncome;
    FederalTaxBound(year, t.filingStatus, r.federalTaxableIncome);
    StateTaxBound(t.state, key, r.stateTaxableIncome);
    NycTaxBound(key, r.stateTaxableIncome);
    assert 0.0 <= r.seTax <= seBound by {
      if r.netSelfEmploymentIncome > 0.0 {
        SETaxBounds(year, t.filingStatus, t.grossIncome, r.netSelfEmploymentIncome);
      }
    }
    if r.totalIncome > 0.0 {
      TaxShare(r.federalTax, r.seTax, r.stateTax, r.nycTax, r.federalTaxableIncome, r.stateTaxableIncome, r.agi,
               r.totalIncome, r.netSelfEmploymentIncome, t.grossIncome);
      PercentBelowHundred(r.totalTax, r.totalIncome);
    }
  }
}
