/**
 * The tax-reduction guidance rule engine (generateGuidance and
 * estimatePotentialItemized in js/guidance.js).
 *
 * An item is kept as its rule, its optional savings figure and its
 * priority; the category is the list it is pushed to. The titles,
 * descriptions, limit and calculation strings are not modelled.
 */
module Guidance {
  import opened TaxData
  import opened Brackets
  import opened Deductions

  datatype Option<T> = None | Some(value: T)

  /** The four lists of the `guidance` object. */
  datatype Category = Immediate | Retirement | Deduction | Planning

  datatype Priority = High | Medium | Low

  /** One identifier per guarded block of generateGuidance, in the order the blocks appear. */
  datatype Rule =
    | SepIra | Solo401k | SelfEmployedHealth | QuarterlyPayments | QualifiedBusinessIncome
    | BusinessExpenses | MaximizeHsa | FlexibleSpending | Maximize401k | Maximized401k
    | TraditionalIra | RothContributions | BackdoorRoth | HomeownerBenefits | ReviewItemized
    | CharitableGiving | DonorAdvisedFund | NjPropertyTax | Ny529 | TaxLossHarvesting
    | IncomeTiming | AdjustWithholding | BusinessStructures | MunicipalBonds

  datatype Item = Item(rule: Rule, savings: Option<int>, priority: Priority)

  /** The `guidance` object: one list of items per category. */
  datatype Report = Report(immediate: seq<Item>, retirement: seq<Item>, deductions: seq<Item>, planning: seq<Item>)

  /** The fields of the `inputs` object that generateGuidance reads, with the tax year. */
  datatype GuidanceInputs = GuidanceInputs(
    year: int,
    filingStatus: FilingStatus,
    state: StateCode,
    isNYCResident: bool,
    totalIncome: real,
    grossIncome: real,
    netSelfEmploymentIncome: real,
    agi: real,
    preTax: PreTax,
    federalTax: real,
    federalWithheld: real,
    seTax: real,
    marginalRate: real,
    deductionType: DeductionType)

  /** The NYC surcharge added to the combined marginal rate of a city resident. */
  const NycSurcharge: real := 0.03876

  // ------------------------------------------------------------------
  // Rounding and the itemized estimate
  // ------------------------------------------------------------------

  /** Math.round: the nearest integer, halves rounded up. */
  function Round(x: real): (n: int)
    ensures x - 0.5 < n as real <= x + 0.5
  {
    (x + 0.5).Floor
  }

  /** `Math.round(amount * rate)`, the savings figure of an item. */
  function RoundedSavings(amount: real, rate: real): int {
    Round(amount * rate)
  }

  /** The SALT part of estimatePotentialItemized: 5% of income, at most 10000. */
  function SaltEstimate(income: real): (s: real)
    ensures s <= SaltCap && s <= income * 0.05
    ensures s == SaltCap || s == income * 0.05
  {
    MinReal(income * 0.05, SaltCap)
  }

  /** The mortgage part of estimatePotentialItemized: 3% of income above 100000, else nothing. */
  function MortgageEstimate(income: real): (m: real)
    ensures income <= 100000.0 ==> m == 0.0
    ensures income > 100000.0 ==> m == income * 0.03
  {
    if income > 100000.0 then income * 0.03 else 0.0
  }

  /**
   * estimatePotentialItemized (its `state` argument is unused): the SALT,
   * mortgage and 2%-of-income charitable estimates added up.
   */
  function EstimatePotentialItemized(income: real): (e: real)
    ensures income >= 0.0 ==> 0.0 <= e <= income * 0.10
    ensures income <= 100000.0 ==> e <= SaltCap + income * 0.02
  {
    SaltEstimate(income) + MortgageEstimate(income) + income * 0.02
  }

  // ------------------------------------------------------------------
  // The rule table
  // ------------------------------------------------------------------

  /** Position of the rule's block in generateGuidance. */
  function Rank(rule: Rule): nat {
    match rule
    case SepIra => 0
    case Solo401k => 1
    case SelfEmployedHealth => 2
    case QuarterlyPayments => 3
    case QualifiedBusinessIncome => 4
    case BusinessExpenses => 5
    case MaximizeHsa => 6
    case FlexibleSpending => 7
    case Maximize401k => 8
    case Maximized401k => 9
    case TraditionalIra => 10
    case RothContributions => 11
    case BackdoorRoth => 12
    case HomeownerBenefits => 13
    case ReviewItemized => 14
    case CharitableGiving => 15
    case DonorAdvisedFund => 16
    case NjPropertyTax => 17
    case Ny529 => 18
    case TaxLossHarvesting => 19
    case IncomeTiming => 20
    case AdjustWithholding => 21
    case BusinessStructures => 22
    case MunicipalBonds => 23
  }

  /** The list each rule pushes to. */
  function CategoryOf(rule: Rule): Category {
    match rule
    case MaximizeHsa | FlexibleSpending => Immediate
    case SepIra | Solo401k | Maximize401k | Maximized401k | TraditionalIra
      | RothContributions | BackdoorRoth => Retirement
    case SelfEmployedHealth | QualifiedBusinessIncome | BusinessExpenses | HomeownerBenefits
      | ReviewItemized | CharitableGiving | DonorAdvisedFund | NjPropertyTax | Ny529 => Deduction
    case QuarterlyPayments | TaxLossHarvesting | IncomeTiming | AdjustWithholding
      | BusinessStructures | MunicipalBonds => Planning
  }

  function PriorityOf(rule: Rule): Priority {
    match rule
    case SepIra | SelfEmployedHealth | QuarterlyPayments | QualifiedBusinessIncome
      | MaximizeHsa | Maximize401k | TraditionalIra | HomeownerBenefits | AdjustWithholding => High
    case Solo401k | BusinessExpenses | FlexibleSpending | RothContributions | ReviewItemized
      | CharitableGiving | NjPropertyTax | Ny529 | TaxLossHarvesting | BusinessStructures => Medium
    case Maximized401k | BackdoorRoth | DonorAdvisedFund | IncomeTiming | MunicipalBonds => Low
  }

  /** The rules guarded by `netSelfEmploymentIncome > 0`. */
  predicate IsSelfEmploymentRule(rule: Rule) {
    rule in {SepIra, Solo401k, SelfEmployedHealth, QuarterlyPayments, QualifiedBusinessIncome, BusinessExpenses}
  }

  /** The rules whose savings are added to totalPotentialSavings. */
  predicate Counted(rule: Rule) {
    rule in {SepIra, QualifiedBusinessIncome, MaximizeHsa, FlexibleSpending, Maximize401k, TraditionalIra}
  }

  /** The state marginal rate at `income` for the filer (getStateMarginalRate). */
  function StateRateAt(state: StateCode, income: real, status: FilingStatus): (r: real)
    ensures 0.014 <= r <= 0.109
  {
    StateScheduleShape(state, FilingStatusKey(status));
    MarginalRateWithin(StateBrackets(state, FilingStatusKey(status)), income);
    MarginalRate(StateBrackets(state, FilingStatusKey(status)), income)
  }

  /** Federal marginal rate plus the state rate at AGI plus the NYC surcharge for a resident. */
  function CombinedMarginalRate(g: GuidanceInputs): (r: real)
    ensures g.marginalRate + 0.014 <= r
    ensures r <= g.marginalRate + 0.109 + (if g.isNYCResident then NycSurcharge else 0.0)
  {
    g.marginalRate + StateRateAt(g.state, g.agi, g.filingStatus) + (if g.isNYCResident then NycSurcharge else 0.0)
  }

  /**
   * The two rates generateGuidance works with: the combined marginal rate
   * and the NY state marginal rate at AGI (used by the NY 529 item).
   */
  datatype GuidanceRates = GuidanceRates(combined: real, newYork: real)

  function RatesFor(g: GuidanceInputs): GuidanceRates {
    GuidanceRates(CombinedMarginalRate(g), StateRateAt(NY, g.agi, g.filingStatus))
  }

  /** The SEP-IRA contribution: a quarter of net self-employment income, capped by the limit. */
  function SepContribution(g: GuidanceInputs): real
    requires SupportedYear(g.year)
  {
    MinReal(g.netSelfEmploymentIncome * 0.25, ContributionLimits(g.year).sepIRA)
  }

  /** The family HSA limit applies only to the `married` status. */
  function HsaLimit(g: GuidanceInputs): real
    requires SupportedYear(g.year)
  {
    if g.filingStatus == Married then ContributionLimits(g.year).hsaFamily
    else ContributionLimits(g.year).hsaIndividual
  }

  /** The FSA estimate: the room left under the health FSA limit, at most 2000. */
  function FsaEstimate(g: GuidanceInputs): real
    requires SupportedYear(g.year)
  {
    MinReal(ContributionLimits(g.year).fsaHealth - g.preTax.fsaContributions, 2000.0)
  }

  function Ny529Limit(g: GuidanceInputs): real {
    if g.filingStatus == Married then 10000.0 else 5000.0
  }

  /** The guard of each rule's block. */
  predicate Fires(g: GuidanceInputs, rates: GuidanceRates, rule: Rule)
    requires SupportedYear(g.year)
    ensures IsSelfEmploymentRule(rule) && g.netSelfEmploymentIncome <= 0.0 ==> !Fires(g, rates, rule)
  {
    var limits := ContributionLimits(g.year);
    var selfEmployed := g.netSelfEmploymentIncome > 0.0;
    var standardDed := StandardDeduction(g.year, g.filingStatus);
    match rule
    case SepIra => selfEmployed && SepContribution(g) > 5000.0
    case Solo401k => selfEmployed && g.netSelfEmploymentIncome > 50000.0
    case SelfEmployedHealth => selfEmployed
    case QuarterlyPayments => selfEmployed && g.seTax > 1000.0
    case QualifiedBusinessIncome => selfEmployed && g.agi < 197300.0
    case BusinessExpenses => selfEmployed
    case MaximizeHsa =>
      g.preTax.hsaContributions < HsaLimit(g) && HsaLimit(g) - g.preTax.hsaContributions > 0.0
    case FlexibleSpending =>
      g.preTax.fsaContributions < limits.fsaHealth && g.totalIncome > 50000.0
    case Maximize401k => g.grossIncome > 0.0 && g.preTax.retirement401k < limits.traditional401k
    case Maximized401k => g.grossIncome > 0.0 && g.preTax.retirement401k >= limits.traditional401k
    case TraditionalIra =>
      g.preTax.traditionalIRA < limits.ira
      && (g.totalIncome < 150000.0 || (g.filingStatus == Married && g.totalIncome < 230000.0))
    case RothContributions => g.marginalRate <= 0.22
    case BackdoorRoth => g.totalIncome > 165000.0
    case HomeownerBenefits =>
      g.totalIncome > 75000.0 && g.deductionType == Standard
      && g.totalIncome * 0.03 + MinReal(8000.0, 10000.0) > standardDed * 0.7
    case ReviewItemized =>
      g.deductionType == Standard && EstimatePotentialItemized(g.totalIncome) > standardDed * 0.8
    case CharitableGiving => g.totalIncome > 100000.0
    case DonorAdvisedFund => g.totalIncome > 100000.0
    case NjPropertyTax => g.state == NJ
    case Ny529 => g.state == NY
    case TaxLossHarvesting => g.totalIncome > 75000.0
    case IncomeTiming => true
    case AdjustWithholding => g.federalTax > g.federalWithheld + 1000.0
    case BusinessStructures => g.totalIncome > 150000.0 && g.netSelfEmploymentIncome == 0.0
    case MunicipalBonds => rates.combined > 0.35
  }

  /** The savings figure each rule's item carries. */
  function Savings(g: GuidanceInputs, rates: GuidanceRates, rule: Rule): (s: Option<int>)
    requires SupportedYear(g.year)
    ensures Counted(rule) ==> s.Some?
  {
    var limits := ContributionLimits(g.year);
    var combined := rates.combined;
    match rule
    case SepIra => Some(RoundedSavings(SepContribution(g), combined))
    case QualifiedBusinessIncome => Some(RoundedSavings(g.netSelfEmploymentIncome * 0.20, g.marginalRate))
    case MaximizeHsa => Some(RoundedSavings(HsaLimit(g) - g.preTax.hsaContributions, combined))
    case FlexibleSpending => Some(RoundedSavings(FsaEstimate(g), combined))
    case Maximize401k => Some(RoundedSavings(limits.traditional401k - g.preTax.retirement401k, combined))
    case TraditionalIra => Some(RoundedSavings(limits.ira - g.preTax.traditionalIRA, combined))
    case Ny529 => Some(RoundedSavings(Ny529Limit(g), rates.newYork))
    case TaxLossHarvesting => Some(RoundedSavings(3000.0, combined))
    case _ => None
  }

  function ItemFor(g: GuidanceInputs, rates: GuidanceRates, rule: Rule): Item
    requires SupportedYear(g.year)
  {
    Item(rule, Savings(g, rates, rule), PriorityOf(rule))
  }

  /** The item of `rule` if its guard holds, else nothing. */
  function Opt(g: GuidanceInputs, rates: GuidanceRates, rule: Rule): seq<Item>
    requires SupportedYear(g.year)
  {
    if Fires(g, rates, rule) then [ItemFor(g, rates, rule)] else []
  }

  /** The items of the rules that fire, in the order of `rules`. */
  function Collect(g: GuidanceInputs, rates: GuidanceRates, rules: seq<Rule>): seq<Item>
    requires SupportedYear(g.year)
  {
    if |rules| == 0 then [] else Collect(g, rates, rules[..|rules| - 1]) + Opt(g, rates, rules[|rules| - 1])
  }

  const ImmediateRules: seq<Rule> := [MaximizeHsa, FlexibleSpending]
  const RetirementRules: seq<Rule> :=
    [SepIra, Solo401k, Maximize401k, Maximized401k, TraditionalIra, RothContributions, BackdoorRoth]
  const DeductionRules: seq<Rule> :=
    [SelfEmployedHealth, QualifiedBusinessIncome, BusinessExpenses, HomeownerBenefits, ReviewItemized,
     CharitableGiving, DonorAdvisedFund, NjPropertyTax, Ny529]
  const PlanningRules: seq<Rule> :=
    [QuarterlyPayments, TaxLossHarvesting, IncomeTiming, AdjustWithholding, BusinessStructures, MunicipalBonds]

  function RulesOf(c: Category): seq<Rule> {
    match c
    case Immediate => ImmediateRules
    case Retirement => RetirementRules
    case Deduction => DeductionRules
    case Planning => PlanningRules
  }

  /** The report the rules build when the rates are `rates`. */
  function Build(g: GuidanceInputs, rates: GuidanceRates): Report
    requires SupportedYear(g.year)
  {
    Report(Collect(g, rates, ImmediateRules), Collect(g, rates, RetirementRules),
           Collect(g, rates, DeductionRules), Collect(g, rates, PlanningRules))
  }

  /** The report generateGuidance builds. */
  function Expected(g: GuidanceInputs): Report
    requires SupportedYear(g.year)
  {
    Build(g, RatesFor(g))
  }

  function ListOf(r: Report, c: Category): seq<Item> {
    match c
    case Immediate => r.immediate
    case Retirement => r.retirement
    case Deduction => r.deductions
    case Planning => r.planning
  }

  /** What an item adds to totalPotentialSavings. */
  function Contribution(item: Item): int {
    if Counted(item.rule) && item.savings.Some? then item.savings.value else 0
  }

  function CountedSavings(items: seq<Item>): int {
    if |items| == 0 then 0 else CountedSavings(items[..|items| - 1]) + Contribution(items[|items| - 1])
  }

  /** What the block of `rule` adds to totalPotentialSavings. */
  function RuleSavings(g: GuidanceInputs, rates: GuidanceRates, rule: Rule): int
    requires SupportedYear(g.year)
  {
    if Fires(g, rates, rule) then Contribution(ItemFor(g, rates, rule)) else 0
  }

  /** What the blocks of `rules` add to totalPotentialSavings. */
  function SavingsOver(g: GuidanceInputs, rates: GuidanceRates, rules: seq<Rule>): int
    requires SupportedYear(g.year)
  {
    if |rules| == 0 then 0 else SavingsOver(g, rates, rules[..|rules| - 1]) + RuleSavings(g, rates, rules[|rules| - 1])
  }

  /** The savings total the rules add up when the rates are `rates`. */
  function TotalSavings(g: GuidanceInputs, rates: GuidanceRates): int
    requires SupportedYear(g.year)
  {
    SavingsOver(g, rates, ImmediateRules) + SavingsOver(g, rates, RetirementRules)
      + SavingsOver(g, rates, DeductionRules) + SavingsOver(g, rates, PlanningRules)
  }

  /** The totalPotentialSavings generateGuidance computes. */
  function ExpectedSavings(g: GuidanceInputs): int
    requires SupportedYear(g.year)
  {
    TotalSavings(g, RatesFor(g))
  }

  /** The savings of the counted items over all four lists. */
  function TotalCounted(r: Report): int {
    CountedSavings(r.immediate) + CountedSavings(r.retirement)
      + CountedSavings(r.deductions) + CountedSavings(r.planning)
  }

  // ------------------------------------------------------------------
  // generateGuidance
  // ------------------------------------------------------------------

  /** Appending the item of one more rule, and the savings it adds. */
  lemma CollectSnoc(g: GuidanceInputs, rates: GuidanceRates, rules: seq<Rule>, r: Rule)
    requires SupportedYear(g.year)
    ensures Collect(g, rates, rules + [r]) == Collect(g, rates, rules) + Opt(g, rates, r)
    ensures SavingsOver(g, rates, rules + [r]) == SavingsOver(g, rates, rules) + RuleSavings(g, rates, r)
  {
    assert (rules + [r])[..|rules|] == rules;
  }

  /** The immediate list, rule by rule. */
  lemma ImmediateItemsUnrolled(g: GuidanceInputs, rates: GuidanceRates)
    requires SupportedYear(g.year)
    ensures Collect(g, rates, ImmediateRules) == [] + Opt(g, rates, MaximizeHsa)
      + Opt(g, rates, FlexibleSpending)
  {
    ghost var done: seq<Rule> := [];
    CollectSnoc(g, rates, done, MaximizeHsa);
    done := done + [MaximizeHsa];
    CollectSnoc(g, rates, done, FlexibleSpending);
    done := done + [FlexibleSpending];
    assert done == ImmediateRules;
  }

  /** What the immediate rules add to the total, rule by rule. */
  lemma ImmediateSavingsUnrolled(g: GuidanceInputs, rates: GuidanceRates)
    requires SupportedYear(g.year)
    ensures SavingsOver(g, rates, ImmediateRules) == 0 + RuleSavings(g, rates, MaximizeHsa)
      + RuleSavings(g, rates, FlexibleSpending)
  {
    ghost var done: seq<Rule> := [];
    CollectSnoc(g, rates, done, MaximizeHsa);
    done := done + [MaximizeHsa];
    CollectSnoc(g, rates, done, FlexibleSpending);
    done := done + [FlexibleSpending];
    assert done == ImmediateRules;
  }

  /** The retirement list, rule by rule. */
  lemma RetirementItemsUnrolled(g: GuidanceInputs, rates: GuidanceRates)
    requires SupportedYear(g.year)
    ensures Collect(g, rates, RetirementRules) == [] + Opt(g, rates, SepIra) + Opt(g, rates, Solo401k)
      + Opt(g, rates, Maximize401k) + Opt(g, rates, Maximized401k) + Opt(g, rates, TraditionalIra)
      + Opt(g, rates, RothContributions) + Opt(g, rates, BackdoorRoth)
  {
    ghost var done: seq<Rule> := [];
    CollectSnoc(g, rates, done, SepIra);
    done := done + [SepIra];
    CollectSnoc(g, rates, done, Solo401k);
    done := done + [Solo401k];
    CollectSnoc(g, rates, done, Maximize401k);
    done := done + [Maximize401k];
    CollectSnoc(g, rates, done, Maximized401k);
    done := done + [Maximized401k];
    CollectSnoc(g, rates, done, TraditionalIra);
    done := done + [TraditionalIra];
    CollectSnoc(g, rates, done, RothContributions);
    done := done + [RothContributions];
    CollectSnoc(g, rates, done, BackdoorRoth);
    done := done + [BackdoorRoth];
    assert done == RetirementRules;
  }

  /** What the retirement rules add to the total, rule by rule. */
  lemma RetirementSavingsUnrolled(g: GuidanceInputs, rates: GuidanceRates)
    requires SupportedYear(g.year)
    ensures SavingsOver(g, rates, RetirementRules) == 0 + RuleSavings(g, rates, SepIra)
      + RuleSavings(g, rates, Solo401k) + RuleSavings(g, rates, Maximize401k)
      + RuleSavings(g, rates, Maximized401k) + RuleSavings(g, rates, TraditionalIra)
      + RuleSavings(g, rates, RothContributions) + RuleSavings(g, rates, BackdoorRoth)
  {
    ghost var done: seq<Rule> := [];
    CollectSnoc(g, rates, done, SepIra);
    done := done + [SepIra];
    CollectSnoc(g, rates, done, Solo401k);
    done := done + [Solo401k];
    CollectSnoc(g, rates, done, Maximize401k);
    done := done + [Maximize401k];
    CollectSnoc(g, rates, done, Maximized401k);
    done := done + [Maximized401k];
    CollectSnoc(g, rates, done, TraditionalIra);
    done := done + [TraditionalIra];
    CollectSnoc(g, rates, done, RothContributions);
    done := done + [RothContributions];
    CollectSnoc(g, rates, done, BackdoorRoth);
    done := done + [BackdoorRoth];
    assert done == RetirementRules;
  }

  /** The deductions list, rule by rule. */
  lemma DeductionItemsUnrolled(g: GuidanceInputs, rates: GuidanceRates)
    requires SupportedYear(g.year)
    ensures Collect(g, rates, DeductionRules) == [] + Opt(g, rates, SelfEmployedHealth)
      + Opt(g, rates, QualifiedBusinessIncome) + Opt(g, rates, BusinessExpenses)
      + Opt(g, rates, HomeownerBenefits) + Opt(g, rates, ReviewItemized) + Opt(g, rates, CharitableGiving)
      + Opt(g, rates, DonorAdvisedFund) + Opt(g, rates, NjPropertyTax) + Opt(g, rates, Ny529)
  {
    ghost var done: seq<Rule> := [];
    CollectSnoc(g, rates, done, SelfEmployedHealth);
    done := done + [SelfEmployedHealth];
    CollectSnoc(g, rates, done, QualifiedBusinessIncome);
    done := done + [QualifiedBusinessIncome];
    CollectSnoc(g, rates, done, BusinessExpenses);
    done := done + [BusinessExpenses];
    CollectSnoc(g, rates, done, HomeownerBenefits);
    done := done + [HomeownerBenefits];
    CollectSnoc(g, rates, done, ReviewItemized);
    done := done + [ReviewItemized];
    CollectSnoc(g, rates, done, CharitableGiving);
    done := done + [CharitableGiving];
    CollectSnoc(g, rates, done, DonorAdvisedFund);
    done := done + [DonorAdvisedFund];
    CollectSnoc(g, rates, done, NjPropertyTax);
    done := done + [NjPropertyTax];
    CollectSnoc(g, rates, done, Ny529);
    done := done + [Ny529];
    assert done == DeductionRules;
  }

  /** What the deductions rules add to the total, rule by rule. */
  lemma DeductionSavingsUnrolled(g: GuidanceInputs, rates: GuidanceRates)
    requires SupportedYear(g.year)
    ensures SavingsOver(g, rates, DeductionRules) == 0 + RuleSavings(g, rates, SelfEmployedHealth)
      + RuleSavings(g, rates, QualifiedBusinessIncome) + RuleSavings(g, rates, BusinessExpenses)
      + RuleSavings(g, rates, HomeownerBenefits) + RuleSavings(g, rates, ReviewItemized)
      + RuleSavings(g, rates, CharitableGiving) + RuleSavings(g, rates, DonorAdvisedFund)
      + RuleSavings(g, rates, NjPropertyTax) + RuleSavings(g, rates, Ny529)
  {
    ghost var done: seq<Rule> := [];
    CollectSnoc(g, rates, done, SelfEmployedHealth);
    done := done + [SelfEmployedHealth];
    CollectSnoc(g, rates, done, QualifiedBusinessIncome);
    done := done + [QualifiedBusinessIncome];
    CollectSnoc(g, rates, done, BusinessExpenses);
    done := done + [BusinessExpenses];
    CollectSnoc(g, rates, done, HomeownerBenefits);
    done := done + [HomeownerBenefits];
    CollectSnoc(g, rates, done, ReviewItemized);
    done := done + [ReviewItemized];
    CollectSnoc(g, rates, done, CharitableGiving);
    done := done + [CharitableGiving];
    CollectSnoc(g, rates, done, DonorAdvisedFund);
    done := done + [DonorAdvisedFund];
    CollectSnoc(g, rates, done, NjPropertyTax);
    done := done + [NjPropertyTax];
    CollectSnoc(g, rates, done, Ny529);
    done := done + [Ny529];
    assert done == DeductionRules;
  }

  /** The planning list, rule by rule. */
  lemma PlanningItemsUnrolled(g: GuidanceInputs, rates: GuidanceRates)
    requires SupportedYear(g.year)
    ensures Collect(g, rates, PlanningRules) == [] + Opt(g, rates, QuarterlyPayments)
      + Opt(g, rates, TaxLossHarvesting) + Opt(g, rates, IncomeTiming) + Opt(g, rates, AdjustWithholding)
      + Opt(g, rates, BusinessStructures) + Opt(g, rates, MunicipalBonds)
  {
    ghost var done: seq<Rule> := [];
    CollectSnoc(g, rates, done, QuarterlyPayments);
    done := done + [QuarterlyPayments];
    CollectSnoc(g, rates, done, TaxLossHarvesting);
    done := done + [TaxLossHarvesting];
    CollectSnoc(g, rates, done, IncomeTiming);
    done := done + [IncomeTiming];
    CollectSnoc(g, rates, done, AdjustWithholding);
    done := done + [AdjustWithholding];
    CollectSnoc(g, rates, done, BusinessStructures);
    done := done + [BusinessStructures];
    CollectSnoc(g, rates, done, MunicipalBonds);
    done := done + [MunicipalBonds];
    assert done == PlanningRules;
  }

  /** What the planning rules add to the total, rule by rule. */
  lemma PlanningSavingsUnrolled(g: GuidanceInputs, rates: GuidanceRates)
    requires SupportedYear(g.year)
    ensures SavingsOver(g, rates, PlanningRules) == 0 + RuleSavings(g, rates, QuarterlyPayments)
      + RuleSavings(g, rates, TaxLossHarvesting) + RuleSavings(g, rates, IncomeTiming)
      + RuleSavings(g, rates, AdjustWithholding) + RuleSavings(g, rates, BusinessStructures)
      + RuleSavings(g, rates, MunicipalBonds)
  {
    ghost var done: seq<Rule> := [];
    CollectSnoc(g, rates, done, QuarterlyPayments);
    done := done + [QuarterlyPayments];
    CollectSnoc(g, rates, done, TaxLossHarvesting);
    done := done + [TaxLossHarvesting];
    CollectSnoc(g, rates, done, IncomeTiming);
    done := done + [IncomeTiming];
    CollectSnoc(g, rates, done, AdjustWithholding);
    done := done + [AdjustWithholding];
    CollectSnoc(g, rates, done, BusinessStructures);
    done := done + [BusinessStructures];
    CollectSnoc(g, rates, done, MunicipalBonds);
    done := done + [MunicipalBonds];
    assert done == PlanningRules;
  }

  /**
   * One guarded block: pushing `item` exactly when the guard of `r` holds
   * appends the item list of `r`, and adds what `r` counts for to the total.
   */
  lemma Step(g: GuidanceInputs, rates: GuidanceRates, r: Rule, items: seq<Item>, fired: bool, item: Item)
    requires SupportedYear(g.year)
    requires fired == Fires(g, rates, r) && (fired ==> item == ItemFor(g, rates, r))
    ensures items + Opt(g, rates, r) == if fired then items + [item] else items
    ensures RuleSavings(g, rates, r) == if fired then Contribution(item) else 0
  {
    if !fired {
      assert items + [] == items;
    }
  }

  /** The self-employment block (js/guidance.js:25-89). */
  method SelfEmploymentGuidance(g: GuidanceInputs, combined: real, ghost rates: GuidanceRates, retirement: seq<Item>, deductions: seq<Item>,
                                planning: seq<Item>, total: int)
    returns (retirement': seq<Item>, deductions': seq<Item>, planning': seq<Item>, total': int)
    requires SupportedYear(g.year) && combined == rates.combined
    ensures retirement' == retirement + Opt(g, rates, SepIra) + Opt(g, rates, Solo401k)
    ensures deductions' == deductions + Opt(g, rates, SelfEmployedHealth) + Opt(g, rates, QualifiedBusinessIncome)
      + Opt(g, rates, BusinessExpenses)
    ensures planning' == planning + Opt(g, rates, QuarterlyPayments)
    ensures total' == total + RuleSavings(g, rates, SepIra) + RuleSavings(g, rates, Solo401k) + RuleSavings(g, rates, SelfEmployedHealth)
      + RuleSavings(g, rates, QuarterlyPayments) + RuleSavings(g, rates, QualifiedBusinessIncome) + RuleSavings(g, rates, BusinessExpenses)
  {
    retirement', deductions', planning', total' := retirement, deductions, planning, total;
    var limits := ContributionLimits(g.year);
    if g.netSelfEmploymentIncome > 0.0 {
      var sepLimit := MinReal(g.netSelfEmploymentIncome * 0.25, limits.sepIRA);
      var sepSavings := RoundedSavings(sepLimit, combined);
      var item := Item(SepIra, Some(sepSavings), High);
      Step(g, rates, SepIra, retirement', sepLimit > 5000.0, item);
      if sepLimit > 5000.0 {
        total' := total' + sepSavings;
        retirement' := retirement' + [item];
      }
      item := Item(Solo401k, None, Medium);
      Step(g, rates, Solo401k, retirement', g.netSelfEmploymentIncome > 50000.0, item);
      if g.netSelfEmploymentIncome > 50000.0 {
        retirement' := retirement' + [item];
      }
      item := Item(SelfEmployedHealth, None, High);
      Step(g, rates, SelfEmployedHealth, deductions', true, item);
      deductions' := deductions' + [item];
      item := Item(QuarterlyPayments, None, High);
      Step(g, rates, QuarterlyPayments, planning', g.seTax > 1000.0, item);
      if g.seTax > 1000.0 {
        planning' := planning' + [item];
      }
      var qbiDeduction := g.netSelfEmploymentIncome * 0.20;
      var qbiSavings := RoundedSavings(qbiDeduction, g.marginalRate);
      item := Item(QualifiedBusinessIncome, Some(qbiSavings), High);
      Step(g, rates, QualifiedBusinessIncome, deductions', g.agi < 197300.0, item);
      if g.agi < 197300.0 {
        deductions' := deductions' + [item];
        total' := total' + qbiSavings;
      }
      item := Item(BusinessExpenses, None, Medium);
      Step(g, rates, BusinessExpenses, deductions', true, item);
      deductions' := deductions' + [item];
    } else {
      Step(g, rates, SepIra, retirement, false, ItemFor(g, rates, SepIra));
      Step(g, rates, Solo401k, retirement + Opt(g, rates, SepIra), false, ItemFor(g, rates, Solo401k));
      Step(g, rates, SelfEmployedHealth, deductions, false, ItemFor(g, rates, SelfEmployedHealth));
      Step(g, rates, QualifiedBusinessIncome, deductions + Opt(g, rates, SelfEmployedHealth), false,
           ItemFor(g, rates, QualifiedBusinessIncome));
      Step(g, rates, BusinessExpenses, deductions + Opt(g, rates, SelfEmployedHealth) + Opt(g, rates, QualifiedBusinessIncome), false,
           ItemFor(g, rates, BusinessExpenses));
      Step(g, rates, QuarterlyPayments, planning, false, ItemFor(g, rates, QuarterlyPayments));
    }
  }

  /** The immediate-actions block: HSA and FSA (js/guidance.js:91-125). */
  method ImmediateGuidance(g: GuidanceInputs, combined: real, ghost rates: GuidanceRates, immediate: seq<Item>, total: int)
    returns (immediate': seq<Item>, total': int)
    requires SupportedYear(g.year) && combined == rates.combined
    ensures immediate' == immediate + Opt(g, rates, MaximizeHsa) + Opt(g, rates, FlexibleSpending)
    ensures total' == total + RuleSavings(g, rates, MaximizeHsa) + RuleSavings(g, rates, FlexibleSpending)
  {
    immediate', total' := immediate, total;
    var limits := ContributionLimits(g.year);
    var currentHSA := g.preTax.hsaContributions;
    var currentFSA := g.preTax.fsaContributions;
    var hsaLimit := if g.filingStatus == Married then limits.hsaFamily else limits.hsaIndividual;
    var hsaRoom := hsaLimit - currentHSA;
    var savings := RoundedSavings(hsaRoom, combined);
    var item := Item(MaximizeHsa, Some(savings), High);
    Step(g, rates, MaximizeHsa, immediate', currentHSA < hsaLimit && hsaRoom > 0.0, item);
    if currentHSA < hsaLimit {
      if hsaRoom > 0.0 {
        total' := total' + savings;
        immediate' := immediate' + [item];
      }
    }
    var fsaRoom := limits.fsaHealth - currentFSA;
    var fsaContributionEstimate := MinReal(fsaRoom, 2000.0);
    var fsaSavings := RoundedSavings(fsaContributionEstimate, combined);
    item := Item(FlexibleSpending, Some(fsaSavings), Medium);
    Step(g, rates, FlexibleSpending, immediate', currentFSA < limits.fsaHealth && g.totalIncome > 50000.0, item);
    if currentFSA < limits.fsaHealth && g.totalIncome > 50000.0 {
      immediate' := immediate' + [item];
      total' := total' + fsaSavings;
    }
  }

  /** The retirement block: 401(k), IRA, Roth and backdoor Roth (js/guidance.js:127-185). */
  method RetirementGuidance(g: GuidanceInputs, combined: real, ghost rates: GuidanceRates, retirement: seq<Item>, total: int)
    returns (retirement': seq<Item>, total': int)
    requires SupportedYear(g.year) && combined == rates.combined
    ensures retirement' == retirement + Opt(g, rates, Maximize401k) + Opt(g, rates, Maximized401k) + Opt(g, rates, TraditionalIra)
      + Opt(g, rates, RothContributions) + Opt(g, rates, BackdoorRoth)
    ensures total' == total + RuleSavings(g, rates, Maximize401k) + RuleSavings(g, rates, Maximized401k)
      + RuleSavings(g, rates, TraditionalIra) + RuleSavings(g, rates, RothContributions) + RuleSavings(g, rates, BackdoorRoth)
  {
    retirement', total' := retirement, total;
    var limits := ContributionLimits(g.year);
    var current401k := g.preTax.retirement401k;
    var currentIRA := g.preTax.traditionalIRA;
    var room := limits.traditional401k - current401k;
    var savings := RoundedSavings(room, combined);
    var item := Item(Maximize401k, Some(savings), High);
    var maxed := Item(Maximized401k, None, Low);
    Step(g, rates, Maximize401k, retirement', g.grossIncome > 0.0 && current401k < limits.traditional401k, item);
    if g.grossIncome > 0.0 && current401k < limits.traditional401k {
      total' := total' + savings;
      retirement' := retirement' + [item];
      Step(g, rates, Maximized401k, retirement', false, maxed);
    } else if g.grossIncome > 0.0 && current401k >= limits.traditional401k {
      Step(g, rates, Maximized401k, retirement', true, maxed);
      retirement' := retirement' + [maxed];
    } else {
      Step(g, rates, Maximized401k, retirement', false, maxed);
    }
    var iraRoom := limits.ira - currentIRA;
    var iraSavings := RoundedSavings(iraRoom, combined);
    var iraEligible := g.totalIncome < 150000.0 || (g.filingStatus == Married && g.totalIncome < 230000.0);
    item := Item(TraditionalIra, Some(iraSavings), High);
    Step(g, rates, TraditionalIra, retirement', currentIRA < limits.ira && iraEligible, item);
    if currentIRA < limits.ira && iraEligible {
      total' := total' + iraSavings;
      retirement' := retirement' + [item];
    }
    item := Item(RothContributions, None, Medium);
    Step(g, rates, RothContributions, retirement', g.marginalRate <= 0.22, item);
    if g.marginalRate <= 0.22 {
      retirement' := retirement' + [item];
    }
    item := Item(BackdoorRoth, None, Low);
    Step(g, rates, BackdoorRoth, retirement', g.totalIncome > 165000.0, item);
    if g.totalIncome > 165000.0 {
      retirement' := retirement' + [item];
    }
  }

  /** The deductions block: homeowner, itemizing and charity items (js/guidance.js:187-236). */
  method DeductionGuidance(g: GuidanceInputs, combined: real, ghost rates: GuidanceRates, deductions: seq<Item>, total: int)
    returns (deductions': seq<Item>, total': int)
    requires SupportedYear(g.year) && combined == rates.combined
    ensures deductions' == deductions + Opt(g, rates, HomeownerBenefits) + Opt(g, rates, ReviewItemized)
      + Opt(g, rates, CharitableGiving) + Opt(g, rates, DonorAdvisedFund)
    ensures total' == total + RuleSavings(g, rates, HomeownerBenefits) + RuleSavings(g, rates, ReviewItemized)
      + RuleSavings(g, rates, CharitableGiving) + RuleSavings(g, rates, DonorAdvisedFund)
  {
    deductions', total' := deductions, total;
    var standardDed := StandardDeduction(g.year, g.filingStatus);
    var potentialMortgageInterest := g.totalIncome * 0.03;
    var potentialPropertyTax := 8000.0;
    var homeItemized := potentialMortgageInterest + MinReal(potentialPropertyTax, 10000.0);
    var item := Item(HomeownerBenefits, None, High);
    Step(g, rates, HomeownerBenefits, deductions',
         g.totalIncome > 75000.0 && g.deductionType == Standard && homeItemized > standardDed * 0.7, item);
    if g.totalIncome > 75000.0 && g.deductionType == Standard {
      if homeItemized > standardDed * 0.7 {
        deductions' := deductions' + [item];
      }
    }
    var potentialItemized := EstimatePotentialItemized(g.totalIncome);
    item := Item(ReviewItemized, None, Medium);
    Step(g, rates, ReviewItemized, deductions', g.deductionType == Standard && potentialItemized > standardDed * 0.8, item);
    if g.deductionType == Standard {
      if potentialItemized > standardDed * 0.8 {
        deductions' := deductions' + [item];
      }
    }
    var charity := Item(CharitableGiving, None, Medium);
    var daf := Item(DonorAdvisedFund, None, Low);
    Step(g, rates, CharitableGiving, deductions', g.totalIncome > 100000.0, charity);
    if g.totalIncome > 100000.0 {
      deductions' := deductions' + [charity];
      Step(g, rates, DonorAdvisedFund, deductions', true, daf);
      deductions' := deductions' + [daf];
    } else {
      Step(g, rates, DonorAdvisedFund, deductions', false, daf);
    }
  }

  /** The state-specific deduction items: NJ property tax and the NY 529 plan (js/guidance.js:238-259). */
  method StateDeductionGuidance(g: GuidanceInputs, ghost rates: GuidanceRates, deductions: seq<Item>, total: int)
    returns (deductions': seq<Item>, total': int)
    requires SupportedYear(g.year) && rates.newYork == StateRateAt(NY, g.agi, g.filingStatus)
    ensures deductions' == deductions + Opt(g, rates, NjPropertyTax) + Opt(g, rates, Ny529)
    ensures total' == total + RuleSavings(g, rates, NjPropertyTax) + RuleSavings(g, rates, Ny529)
  {
    deductions', total' := deductions, total;
    var item := Item(NjPropertyTax, None, Medium);
    Step(g, rates, NjPropertyTax, deductions', g.state == NJ, item);
    if g.state == NJ {
      deductions' := deductions' + [item];
    }
    if g.state == NY {
      var ny529Limit := if g.filingStatus == Married then 10000.0 else 5000.0;
      var nyRate := StateMarginalRate(NY, g.agi, g.filingStatus);
      var ny529Savings := RoundedSavings(ny529Limit, nyRate);
      item := Item(Ny529, Some(ny529Savings), Medium);
      Step(g, rates, Ny529, deductions', true, item);
      deductions' := deductions' + [item];
    } else {
      Step(g, rates, Ny529, deductions', false, item);
    }
  }

  /** The tax-planning block (js/guidance.js:261-316). */
  method PlanningGuidance(g: GuidanceInputs, combined: real, ghost rates: GuidanceRates, planning: seq<Item>, total: int)
    returns (planning': seq<Item>, total': int)
    requires SupportedYear(g.year) && combined == rates.combined
    ensures planning' == planning + Opt(g, rates, TaxLossHarvesting) + Opt(g, rates, IncomeTiming) + Opt(g, rates, AdjustWithholding)
      + Opt(g, rates, BusinessStructures) + Opt(g, rates, MunicipalBonds)
    ensures total' == total + RuleSavings(g, rates, TaxLossHarvesting) + RuleSavings(g, rates, IncomeTiming)
      + RuleSavings(g, rates, AdjustWithholding) + RuleSavings(g, rates, BusinessStructures) + RuleSavings(g, rates, MunicipalBonds)
  {
    planning', total' := planning, total;
    var tlhSavings := RoundedSavings(3000.0, combined);
    var item := Item(TaxLossHarvesting, Some(tlhSavings), Medium);
    Step(g, rates, TaxLossHarvesting, planning', g.totalIncome > 75000.0, item);
    if g.totalIncome > 75000.0 {
      planning' := planning' + [item];
    }
    item := Item(IncomeTiming, None, Low);
    Step(g, rates, IncomeTiming, planning', true, item);
    planning' := planning' + [item];
    item := Item(AdjustWithholding, None, High);
    Step(g, rates, AdjustWithholding, planning', g.federalTax > g.federalWithheld + 1000.0, item);
    if g.federalTax > g.federalWithheld + 1000.0 {
      planning' := planning' + [item];
    }
    item := Item(BusinessStructures, None, Medium);
    Step(g, rates, BusinessStructures, planning', g.totalIncome > 150000.0 && g.netSelfEmploymentIncome == 0.0, item);
    if g.totalIncome > 150000.0 && g.netSelfEmploymentIncome == 0.0 {
      planning' := planning' + [item];
    }
    item := Item(MunicipalBonds, None, Low);
    Step(g, rates, MunicipalBonds, planning', combined > 0.35, item);
    if combined > 0.35 {
      planning' := planning' + [item];
    }
  }

  /**
   * generateGuidance: run the five blocks in order over the four lists and
   * the running savings total.
   */
  method GenerateGuidance(g: GuidanceInputs) returns (guidance: Report, totalPotentialSavings: int)
    requires SupportedYear(g.year)
    ensures guidance == Expected(g)
    ensures totalPotentialSavings == ExpectedSavings(g)
  {
    var stateRate := StateMarginalRate(g.state, g.agi, g.filingStatus);
    var combinedMarginalRate := g.marginalRate + stateRate + (if g.isNYCResident then NycSurcharge else 0.0);
    ghost var rates := RatesFor(g);
    var immediate, retirement, deductions, planning := [], [], [], [];
    totalPotentialSavings := 0;
    retirement, deductions, planning, totalPotentialSavings :=
      SelfEmploymentGuidance(g, combinedMarginalRate, rates, retirement, deductions, planning, totalPotentialSavings);
    immediate, totalPotentialSavings :=
      ImmediateGuidance(g, combinedMarginalRate, rates, immediate, totalPotentialSavings);
    retirement, totalPotentialSavings :=
      RetirementGuidance(g, combinedMarginalRate, rates, retirement, totalPotentialSavings);
    deductions, totalPotentialSavings :=
      DeductionGuidance(g, combinedMarginalRate, rates, deductions, totalPotentialSavings);
    deductions, totalPotentialSavings := StateDeductionGuidance(g, rates, deductions, totalPotentialSavings);
    planning, totalPotentialSavings := PlanningGuidance(g, combinedMarginalRate, rates, planning, totalPotentialSavings);
    guidance := Report(immediate, retirement, deductions, planning);
    ImmediateItemsUnrolled(g, rates);
    ImmediateSavingsUnrolled(g, rates);
    RetirementItemsUnrolled(g, rates);
    RetirementSavingsUnrolled(g, rates);
    DeductionItemsUnrolled(g, rates);
    DeductionSavingsUnrolled(g, rates);
    PlanningItemsUnrolled(g, rates);
    PlanningSavingsUnrolled(g, rates);
  }
}
