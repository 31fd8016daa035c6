/**
 * Pre-tax deductions and the arithmetic of itemized deductions
 * (getPreTaxDeductions and getItemizedDeductions in js/calculations.js).
 * The form fields arrive already parsed into the records below.
 */
module Deductions {
  import opened TaxData

  /** Which deduction the filer chose on the form. */
  datatype DeductionType = Standard | Itemized

  /** The six pre-tax deduction fields summed by getPreTaxDeductions. */
  datatype PreTax = PreTax(
    retirement401k: real,
    traditionalIRA: real,
    hsaContributions: real,
    healthPremiums: real,
    fsaContributions: real,
    otherPreTax: real)

  function PreTaxTotal(p: PreTax): real {
    p.retirement401k + p.traditionalIRA + p.hsaContributions
      + p.healthPremiums + p.fsaContributions + p.otherPreTax
  }

  /** The itemized-deduction fields read by getItemizedDeductions. */
  datatype ItemizedInputs = ItemizedInputs(
    mortgageInterest: real,
    mortgageInterestSecond: real,
    mortgagePoints: real,
    pmiPremiums: real,
    propertyTaxes: real,
    homeOfficeExpenses: real,
    stateIncomeTaxPaid: real,
    localIncomeTaxPaid: real,
    vehicleRegFees: real,
    charitableCash: real,
    charitableNonCash: real,
    charitableStock: real,
    medicalExpenses: real,
    casualtyLosses: real,
    gamblingLosses: real,
    investmentInterest: real)

  /** The `breakdown` object of getItemizedDeductions. */
  datatype ItemizedBreakdown = ItemizedBreakdown(
    salt: real,
    saltUncapped: real,
    mortgageInterest: real,
    charitable: real,
    medical: real,
    medicalRaw: real,
    casualty: real,
    gambling: real,
    investmentInterest: real,
    homeOffice: real)

  datatype ItemizedResult = ItemizedResult(total: real, breakdown: ItemizedBreakdown)

  /** Cap on the state-and-local-tax deduction. */
  const SaltCap: real := 10000.0

  /** Medical expenses count only above this fraction of AGI. */
  const MedicalFloorRate: real := 0.075

  /** AGI fractions capping cash (with non-cash) and stock donations. */
  const CashCharityRate: real := 0.60
  const StockCharityRate: real := 0.30

  /** The sum of the eight deductible components of a breakdown. */
  function ComponentSum(b: ItemizedBreakdown): real {
    b.salt + b.mortgageInterest + b.charitable + b.medical
      + b.casualty + b.gambling + b.investmentInterest + b.homeOffice
  }

  /** The sum of every itemized field as entered, before any cap or floor. */
  function ClaimedSum(d: ItemizedInputs): real {
    d.mortgageInterest + d.mortgageInterestSecond + d.mortgagePoints + d.pmiPremiums
      + d.propertyTaxes + d.homeOfficeExpenses + d.stateIncomeTaxPaid + d.localIncomeTaxPaid
      + d.vehicleRegFees + d.charitableCash + d.charitableNonCash + d.charitableStock
      + d.medicalExpenses + d.casualtyLosses + d.gamblingLosses + d.investmentInterest
  }

  predicate NonNegativeItemized(d: ItemizedInputs) {
    && d.mortgageInterest >= 0.0 && d.mortgageInterestSecond >= 0.0 && d.mortgagePoints >= 0.0
    && d.pmiPremiums >= 0.0 && d.propertyTaxes >= 0.0 && d.homeOfficeExpenses >= 0.0
    && d.stateIncomeTaxPaid >= 0.0 && d.localIncomeTaxPaid >= 0.0 && d.vehicleRegFees >= 0.0
    && d.charitableCash >= 0.0 && d.charitableNonCash >= 0.0 && d.charitableStock >= 0.0
    && d.medicalExpenses >= 0.0 && d.casualtyLosses >= 0.0 && d.gamblingLosses >= 0.0
    && d.investmentInterest >= 0.0
  }

  /**
   * getItemizedDeductions: SALT capped at 10000, medical above the 7.5%-of-AGI
   * floor, cash and stock donations capped at 60% and 30% of AGI, the four
   * mortgage items summed, and the remaining items taken as entered.
   */
  function ItemizedDeductions(agi: real, d: ItemizedInputs): (r: ItemizedResult)
    ensures r.breakdown.saltUncapped
      == d.propertyTaxes + d.stateIncomeTaxPaid + d.localIncomeTaxPaid + d.vehicleRegFees
    ensures r.breakdown.salt <= SaltCap && r.breakdown.salt <= r.breakdown.saltUncapped
    ensures r.breakdown.salt == SaltCap || r.breakdown.salt == r.breakdown.saltUncapped
    ensures r.breakdown.medical >= 0.0
    ensures r.breakdown.medical >= d.medicalExpenses - MedicalFloorRate * agi
    ensures r.breakdown.medical == 0.0 || r.breakdown.medical == d.medicalExpenses - MedicalFloorRate * agi
    ensures r.breakdown.charitable
      == MinReal(d.charitableCash + d.charitableNonCash, CashCharityRate * agi)
       + MinReal(d.charitableStock, StockCharityRate * agi)
    ensures r.breakdown.charitable <= (CashCharityRate + StockCharityRate) * agi
    ensures r.breakdown.charitable <= d.charitableCash + d.charitableNonCash + d.charitableStock
    // The two caps are separate: stock never uses room left under the cash
    // cap, and cash never uses room left under the stock cap.
    ensures r.breakdown.charitable <= d.charitableCash + d.charitableNonCash + StockCharityRate * agi
    ensures r.breakdown.charitable <= CashCharityRate * agi + d.charitableStock
    ensures r.breakdown.mortgageInterest
      == d.mortgageInterest + d.mortgageInterestSecond + d.mortgagePoints + d.pmiPremiums
    ensures r.breakdown.medicalRaw == d.medicalExpenses
    ensures r.breakdown.casualty == d.casualtyLosses && r.breakdown.gambling == d.gamblingLosses
    ensures r.breakdown.investmentInterest == d.investmentInterest
    ensures r.breakdown.homeOffice == d.homeOfficeExpenses
    ensures r.total == ComponentSum(r.breakdown)
  {
    var totalSalt := d.propertyTaxes + d.stateIncomeTaxPaid + d.localIncomeTaxPaid + d.vehicleRegFees;
    var cappedSalt := MinReal(totalSalt, SaltCap);
    var deductibleMedical := MaxReal(0.0, d.medicalExpenses - agi * MedicalFloorRate);
    var cappedCash := MinReal(d.charitableCash + d.charitableNonCash, agi * CashCharityRate);
    var cappedStock := MinReal(d.charitableStock, agi * StockCharityRate);
    var mortgage := d.mortgageInterest + d.mortgageInterestSecond + d.mortgagePoints + d.pmiPremiums;
    var breakdown := ItemizedBreakdown(
      cappedSalt, totalSalt, mortgage, cappedCash + cappedStock, deductibleMedical,
      d.medicalExpenses, d.casualtyLosses, d.gamblingLosses, d.investmentInterest,
      d.homeOfficeExpenses);
    ItemizedResult(
      cappedSalt + mortgage + (cappedCash + cappedStock) + deductibleMedical
        + d.casualtyLosses + d.gamblingLosses + d.investmentInterest + d.homeOfficeExpenses,
      breakdown)
  }

  /**
   * The caps and the medical floor only ever lower what is claimed: with
   * non-negative entries and a non-negative AGI the itemized total lies
   * between 0 and the sum of the entries.
   */
  lemma ItemizedWithinClaimed(agi: real, d: ItemizedInputs)
    requires agi >= 0.0 && NonNegativeItemized(d)
    ensures 0.0 <= ItemizedDeductions(agi, d).total <= ClaimedSum(d)
  {
    var b := ItemizedDeductions(agi, d).breakdown;
    assert b.medical <= d.medicalExpenses;
    assert 0.0 <= b.charitable;
  }

  /** A larger AGI never raises the deductible medical amount. */
  lemma MedicalFloorRises(agi1: real, agi2: real, d: ItemizedInputs)
    requires agi1 <= agi2
    ensures ItemizedDeductions(agi2, d).breakdown.medical <= ItemizedDeductions(agi1, d).breakdown.medical
  {
  }
}
