# US tax estimator core in Dafny

This project models the computation engine of a client-side US income-tax
estimator (federal, New Jersey, New York State and New York City, tax years
2024–2026). It has three layers, one Dafny module group each:

- **Tax data** (`TaxData.dfy`, from `js/tax-data.js`). The progressive
  bracket schedules, standard deductions, self-employment constants,
  contribution limits and NY standard deductions are constants. Each lookup
  takes the tax year as an explicit parameter in place of the module-level
  `selectedTaxYear`. Lemmas prove every schedule well formed: it starts at
  0, brackets are contiguous, only the last is unbounded, and mins and rates
  strictly increase. They also prove the relations between the tables.
- **Tax arithmetic** (`Brackets.dfy`, `Deductions.dfy`, `Calculations.dfy`,
  from `js/calculations.js`):
  - `calculateBracketTax` is a loop proved against a recursive specification.
    The breakdown is proved to cover the income slice by slice, and the tax
    to be the sum of the slice taxes.
  - The two marginal-rate lookups are downward index loops with an early
    return.
  - The itemized-deduction arithmetic is a function.
  - `calculateTax` is a method from a record of already-parsed form values
    to a result record. It computes the self-employment tax, AGI, the
    deduction floor, the federal, state and NYC taxes, the balances and the
    effective rate, then calls the guidance engine.
- **Guidance** (`Guidance.dfy`, `GuidanceProperties.dfy`, from
  `js/guidance.js`). `generateGuidance` is a method that pushes items onto
  four category lists and keeps a running savings total, block by block in
  the order of the source. Each item is kept as (rule, optional savings,
  priority). It is proved equal to a declarative report, `Expected`: each
  category collects, in rule order, the item of every rule whose guard
  `Fires`. The properties of that report are proved in
  `GuidanceProperties.dfy`.

Modelling conventions:
- Currency is exact `real`.
- `Math.round` is `Floor(x + 0.5)`.
- A bracket's `max: Infinity` is the `Unbounded` constructor.
- Filing statuses and states are enumerations.
- The NJ/NY/NYC tables are defined for the two keys `getFilingStatusKey`
  returns, and `FilingStatusKey`'s contract is what makes every state
  lookup legal.

## Model

| member | source | states |
|---|---|---|
| TaxData.FilingStatusKey | js/tax-data.js:334-339 | the key is "married" exactly for married and married-separate, "single" exactly for single and head of household, and always a key of the NJ/NY/NYC tables |
| TaxData.FederalBrackets | js/tax-data.js:12-127 | the federal table of a supported year and status has seven brackets, starts at 0 at 10% and ends in an unbounded 37% bracket |
| TaxData.StandardDeduction | js/tax-data.js:132-151 | every standard deduction lies between 14600 and 32200; single and married-separate are at most 16100 and married at least 29200 |
| TaxData.SETaxConstants | js/tax-data.js:156-184 | the Social Security and Medicare rates add to 15.3%, the additional Medicare rate is 0.9%, the wage base lies between 168600 and 184500, the married threshold exceeds the positive single one, and net earnings are 92.35% of SE income |
| TaxData.ContributionLimits | js/tax-data.js:189-229 | the limits are positive, each catch-up limit exceeds its base limit (the 60–63 401(k) one at least the over-50 one), the family HSA limit exceeds the individual one, and the SEP-IRA and solo 401(k) limits agree |
| TaxData.NyStandardDeduction | js/tax-data.js:234-238 | the NY standard deduction lies between 8000 and 16050 and is 16050 exactly for married filers |
| TaxData.NjBrackets | js/tax-data.js:243-264 | each NJ table starts at 0 at 1.4% and ends in an unbounded 10.75% bracket |
| TaxData.NyBrackets | js/tax-data.js:268-292 | each NY table starts at 0 at 4% and ends in an unbounded 10.9% bracket |
| TaxData.NycBrackets | js/tax-data.js:296-309 | each NYC table starts at 0 at 3.078% and ends in an unbounded 3.876% bracket |
| TaxData.StateBrackets | js/calculations.js:204 | the table chosen for NJ starts at 1.4% and tops out at 10.75%, the one for NY starts at 4% and tops out at 10.9%; both start at 0 and end unbounded |
| TaxData.ChainsUpLinks | js/tax-data.js:12-127 | a schedule built bracket by bracket has each max equal to the next min, and strictly rising mins and rates between any two brackets |
| TaxData.RatesWithin | js/tax-data.js:12-127 | in a well-formed schedule every rate lies between the first rate and the top rate |
| TaxData.FederalChainsUp | js/tax-data.js:12-127 | every federal schedule of every supported year and status is contiguous from 0 with rising rates, has seven brackets, starts at 10% and ends in an unbounded 37% bracket |
| TaxData.FederalChainsUp2024 | js/tax-data.js:13-50 | each 2024 federal schedule is contiguous from 0 with rising rates: seven brackets from 10% up to an unbounded 37% bracket |
| TaxData.FederalChainsUp2025 | js/tax-data.js:51-88 | the same for 2025 |
| TaxData.FederalChainsUp2026 | js/tax-data.js:89-126 | the same for 2026 |
| TaxData.FederalScheduleShape | js/tax-data.js:12-127 | every federal schedule is well formed, starts at 10% and tops out at 37% |
| TaxData.NjChainsUp | js/tax-data.js:243-264 | both NJ schedules chain bracket to bracket with rising mins and rates, start at 0 and end in an unbounded bracket |
| TaxData.NyChainsUp | js/tax-data.js:268-292 | both NY schedules chain bracket to bracket with rising mins and rates, start at 0 and end in an unbounded bracket |
| TaxData.StateChainsUp | js/tax-data.js:243-292 | the schedule selected for either state and key chains bracket to bracket with rising mins and rates, starts at 0 and ends in an unbounded bracket |
| TaxData.StateScheduleShape | js/tax-data.js:243-292 | every state schedule is well formed, with rates between 1.4% and 10.9% |
| TaxData.NycScheduleShape | js/tax-data.js:296-309 | both NYC schedules are well formed, start at 3.078% and top out at 3.876% |
| TaxData.StandardDeductionShape | js/tax-data.js:132-151 | for every year the married standard deduction is twice the single one, married-separate equals single, and head of household lies strictly between |
| TaxData.SEConstantsShape | js/tax-data.js:156-184 | for every year the net-earnings factor is 0.9235, the rates are 12.4%, 2.9% and 0.9%, and the married additional-Medicare threshold exceeds the single one |
| Brackets.CalculateBracketTax | js/calculations.js:173-197 | the loop returns the tax and breakdown of the recursive specification, and income at or below 0 gives tax 0 and an empty breakdown |
| Brackets.BreakdownFollowsSchedule | js/calculations.js:178-196 | for a well-formed schedule and positive income, the breakdown entries are the schedule's brackets in order, each with 0 < amount ≤ bracket width, the amounts sum to the income and the tax is the sum of amount × rate |
| Brackets.TaxIsSumOfSlices | js/calculations.js:182-192 | the accumulated tax equals the sum of the taxes of the pushed slices |
| Brackets.BracketTaxSlope | js/calculations.js:178-196 | the tax never falls as income rises, and rises by at most the top rate times the increase |
| Brackets.BracketTaxBounds | js/calculations.js:173-197 | on non-negative income the tax lies between 0 and the top rate times the income |
| Brackets.LookupMarginalRate | js/calculations.js:208-213 | the downward scan returns the rate of the highest bracket whose min is strictly below the income, or the first rate when none is |
| Brackets.MarginalRateWithin | js/calculations.js:203-224 | the marginal rate lies between the schedule's first and top rates |
| Brackets.MarginalRateIsLastSliceRate | js/calculations.js:178-224 | for positive income the marginal rate is the rate of the last breakdown slice |
| Brackets.StateMarginalRate | js/calculations.js:203-214 | getStateMarginalRate returns the marginal rate of the state schedule for the normalised key, between 1.4% and 10.9% |
| Brackets.FederalMarginalRate | js/calculations.js:216-224 | getFederalMarginalRate returns the marginal rate of the year's federal schedule, between 10% and 37% |
| Deductions.ItemizedDeductions | js/calculations.js:44-73 | SALT is the smaller of the four SALT fields and 10000; medical is non-negative, at least the excess over 7.5% of AGI and either 0 or that excess; charitable is cash plus non-cash capped at 60% of AGI plus stock capped separately at 30% of AGI, so neither part uses the other's room; mortgage interest is the sum of its four fields; casualty, gambling, investment interest and home office pass through; the total is the sum of the eight components |
| Deductions.ItemizedWithinClaimed | js/calculations.js:44-73 | with non-negative fields and AGI the itemized total lies between 0 and the sum of the fields entered |
| Deductions.MedicalFloorRises | js/calculations.js:58-59 | a larger AGI never raises the deductible medical amount |
| Calculations.SocialSecurityTaxable | js/calculations.js:265-268 | the SS-taxable earnings are at most the net earnings and at most what wages leave of the wage base, and equal one of the two |
| Calculations.SETax | js/calculations.js:261-283 | no SE tax without positive net SE income; with non-negative rates at least the Medicare rate on all net earnings, which have no wage base |
| Calculations.SETaxPositive | js/calculations.js:261-281 | on positive net SE income the SE tax is Social Security on the capped earnings plus Medicare on all of them plus the additional Medicare tax above the status threshold |
| Calculations.SelfEmploymentTax | js/calculations.js:257-283 | the SE tax is the specification's tax, the SE deduction is exactly half of it, and both are 0 without net SE income |
| Calculations.SETaxBounds | js/calculations.js:261-283 | with positive net SE income and non-negative wages the SE tax is positive and at most 15% of net SE income plus 0.9% of wages |
| Calculations.WagesAboveWageBase | js/calculations.js:265-269 | wages at or above the wage base leave no SE earnings subject to Social Security tax |
| Calculations.SETaxExample | js/calculations.js:261-283 | 100000 of 2025 SE income with no wages, filing single, gives 14129.55 of SE tax |
| Calculations.FederalTaxBound | js/calculations.js:307-312 | the federal tax is between 0 and 37% of the positive part of the taxable income |
| Calculations.StateTaxBound | js/calculations.js:321-335 | the state tax is between 0 and 10.9% of the positive part of the state taxable income |
| Calculations.NycTaxBound | js/calculations.js:338-342 | the NYC tax is between 0 and 3.876% of the positive part of the state taxable income |
| Calculations.EffectiveRate | js/calculations.js:352-353 | the effective rate is 0 without positive total income; otherwise rate × total income = 100 × total tax |
| Calculations.ChooseDeduction | js/calculations.js:290-304 | the deduction is never below the standard deduction, equals it for the standard type, and is the larger of the itemized total and the standard deduction for the itemized type; a breakdown is kept exactly for the itemized type |
| Calculations.StateTaxes | js/calculations.js:314-342 | NJ taxable income is AGI; NY taxable income is max(0, AGI − NY standard deduction); the state tax and breakdown come from the state schedule of the normalised key; NYC tax is on the same base for a resident and 0 otherwise |
| Calculations.CalculateTax | js/calculations.js:243-450 | net SE income, SE tax and deduction, total income and AGI, the deduction floor, federal taxable income max(0, AGI − deduction) and its tax, state and NYC taxes, balances (NYC only for residents), total tax and effective rate; with non-negative income entries the effective rate is below 100; the marginal rate is the federal marginal rate at the federal taxable income (10%–37%), and the guidance and savings total are those of generateGuidance on the assembled inputs |
| Calculations.TaxesWithinIncome | js/calculations.js:286-353 | with non-negative income entries, federal, SE, state and NYC tax together stay below total income, so the effective rate is in [0, 100) |
| Guidance.Round | js/guidance.js:28 | Math.round lands within half a unit of its argument |
| Guidance.StateRateAt | js/guidance.js:16 | the state marginal rate at AGI lies between 1.4% and 10.9% |
| Guidance.CombinedMarginalRate | js/guidance.js:16 | the combined rate is at least the federal rate plus 1.4% and at most the federal rate plus 10.9%, plus 3.876% for an NYC resident |
| Guidance.Fires | js/guidance.js:25-316 | the guard of each block, which EmittedIffFires ties to the report; no self-employment block fires without positive net SE income |
| Guidance.Savings | js/guidance.js:25-316 | the savings figure of each block's item; every one of the six counted items carries a figure |
| Guidance.SaltEstimate | js/guidance.js:322 | the SALT estimate is at most 10000 and at most 5% of income, and equals one of them |
| Guidance.MortgageEstimate | js/guidance.js:323 | the mortgage estimate is 0 unless income exceeds 100000, and 3% of income then |
| Guidance.EstimatePotentialItemized | js/guidance.js:321-326 | for non-negative income the estimate is between 0 and 10% of income; up to 100000 it is at most 10000 plus 2% of income |
| Guidance.SelfEmploymentGuidance | js/guidance.js:25-89 | appends the SEP, Solo 401(k), SE health, QBI, business-expense and quarterly-payment items exactly when their guards hold, and adds only the SEP and QBI savings |
| Guidance.ImmediateGuidance | js/guidance.js:91-125 | appends the HSA and FSA items exactly when their guards hold and adds their savings |
| Guidance.RetirementGuidance | js/guidance.js:127-185 | appends the 401(k), IRA, Roth and backdoor-Roth items exactly when their guards hold and adds the 401(k) and IRA savings |
| Guidance.DeductionGuidance | js/guidance.js:187-236 | appends the homeowner, review-itemized, charitable and donor-advised-fund items exactly when their guards hold and adds nothing |
| Guidance.StateDeductionGuidance | js/guidance.js:238-259 | appends the NJ property-tax item for NJ and the NY 529 item for NY (its savings at the NY rate) and adds nothing |
| Guidance.PlanningGuidance | js/guidance.js:261-316 | appends the tax-loss-harvesting, income-timing, withholding, business-structure and municipal-bond items exactly when their guards hold and adds nothing |
| Guidance.GenerateGuidance | js/guidance.js:6-319 | the report equals the declarative report (each list collects, in block order, the item of every rule whose guard holds) and the total equals the declarative savings total |
| Guidance.CollectSnoc | js/guidance.js:14 | collecting one more rule appends only that rule's item, if it fires, and adds only its savings |
| Guidance.RetirementItemsUnrolled | js/guidance.js:25-185 | the retirement list is the guarded SEP, Solo 401(k), 401(k), IRA, Roth and backdoor-Roth items in that order |
| Guidance.RetirementSavingsUnrolled | js/guidance.js:25-185 | the retirement rules' savings add up rule by rule in the same order |
| Guidance.ImmediateItemsUnrolled | js/guidance.js:91-125 | the immediate list is the guarded HSA item then the guarded FSA item |
| Guidance.ImmediateSavingsUnrolled | js/guidance.js:91-125 | the immediate rules' savings add up rule by rule |
| Guidance.DeductionItemsUnrolled | js/guidance.js:48-259 | the deductions list is the guarded SE health, QBI, business-expense, homeowner, review-itemized, charitable, DAF, NJ and NY 529 items in that order |
| Guidance.DeductionSavingsUnrolled | js/guidance.js:48-259 | the deduction rules' savings add up rule by rule |
| Guidance.PlanningItemsUnrolled | js/guidance.js:58-316 | the planning list is the guarded quarterly-payment, tax-loss, income-timing, withholding, business-structure and municipal-bond items in that order |
| Guidance.PlanningSavingsUnrolled | js/guidance.js:58-316 | the planning rules' savings add up rule by rule |
| Guidance.Step | js/guidance.js:25-316 | one guarded block appends its item exactly when it fires and contributes that item's counted savings |
| GuidanceProperties.CollectSound | js/guidance.js:14-316 | every collected item is the item of a listed rule whose guard holds |
| GuidanceProperties.CollectComplete | js/guidance.js:14-316 | the item of every listed rule whose guard holds is collected |
| GuidanceProperties.CollectRanked | js/guidance.js:14-316 | collecting keeps items in the order of their rules: items are only appended, never removed or reordered |
| GuidanceProperties.RanksRiseRanked | js/guidance.js:14-316 | rules whose ranks rise between neighbours are ordered along the whole list |
| GuidanceProperties.RulesRanked | js/guidance.js:14-316 | each category lists its rules in the order of their blocks in the source |
| GuidanceProperties.RuleListed | js/guidance.js:14-316 | every rule belongs to the rule list of its own category |
| GuidanceProperties.ReportSound | js/guidance.js:14-316 | every item of the report is in its rule's category list, its rule's guard holds and it is that rule's item |
| GuidanceProperties.EmittedIffFires | js/guidance.js:14-316 | a rule's item is in the report if and only if its guard holds |
| GuidanceProperties.ReportRanked | js/guidance.js:14-316 | every category list follows the order of the blocks in the source |
| GuidanceProperties.NoSelfEmploymentItems | js/guidance.js:25-89 | without net SE income none of the six self-employment items appears |
| GuidanceProperties.SelfEmploymentBasics | js/guidance.js:48-89 | with net SE income the SE health and business-expense items always appear |
| GuidanceProperties.OneFourOhOneKItem | js/guidance.js:127-149 | with wages exactly one of "Maximize 401(k)" and "401(k) Maximized" appears, without wages neither; "Maximize" appears exactly when there are wages and room under the limit |
| GuidanceProperties.IraItemCondition | js/guidance.js:151 | the IRA item appears iff there is IRA room and income is below 150000, or the filer is married with income below 230000 |
| GuidanceProperties.SepItemCondition | js/guidance.js:25-29 | the SEP item appears iff there is net SE income and min(25% of it, the SEP limit) exceeds 5000 |
| GuidanceProperties.PlanningNeverEmpty | js/guidance.js:280-286 | the income-timing item always appears, so the planning list is never empty |
| GuidanceProperties.CountedSavingsOfCollect | js/guidance.js:14-316 | the counted savings of a collected list equal the savings its rules add |
| GuidanceProperties.SavingsTotalIsCounted | js/guidance.js:15-316 | the savings total is the sum of the savings of the counted items in the report |
| GuidanceProperties.UncountedAddsNothing | js/guidance.js:254-275 | a rule outside the counted six adds nothing to the total, whether or not it fires |
| GuidanceProperties.SavingsFigureRules | js/guidance.js:25-275 | exactly eight items carry a savings figure: the six counted ones, the NY 529 item and the tax-loss-harvesting item |
| GuidanceProperties.OnlySixRulesCount | js/guidance.js:25-275 | the total is the savings of the SEP, QBI, HSA, FSA, 401(k) and IRA items when they fire; the NY 529 and tax-loss-harvesting savings are never added |
| GuidanceProperties.RatesWithinSchedules | js/guidance.js:16 | the combined rate lies between the federal rate plus 1.4% and the federal rate plus 10.9% plus the NYC surcharge; the NY rate lies between 1.4% and 10.9% |
| GuidanceProperties.SavingsNonNegative | js/guidance.js:26-269 | with non-negative rates no item shows negative savings |
| GuidanceProperties.SavingsRounded | js/guidance.js:28 | rounding a non-negative amount times a non-negative rate gives a non-negative figure |
| GuidanceProperties.NycSurchargeIsTopRate | js/guidance.js:16 | the NYC surcharge hard-coded in the combined rate is the top rate of both NYC schedules |

## Left out

- DOM reads and writes are not modelled: form fields, result rendering, `updateItemizedTotals`, `updatePreTaxTotal`, `formatInput`, `renderGuidance` and `renderGuidanceTab`. The form values arrive already parsed in `TaxInputs`, and the result is returned as `TaxResult`.
- `js/app.js` is not part of this model. It is UI wiring; its change of the selected year becomes the explicit `year` parameter.
- `parseNumber` and `formatCurrency` are left out. They depend on `parseFloat`, a regular expression and locale formatting.
- `getPreTaxDeductions` is left out. It reduces to the sum `PreTaxTotal` of the six parsed fields.
- Item titles, descriptions and the limit and calculation strings are left out, because they are template text; an item keeps its rule, savings and priority.
- IEEE double rounding is left out. Currency is exact `real`, so float artefacts are not reproduced.
- Tax years other than 2024–2026 are a precondition (`SupportedYear`). In the source such a year makes every lookup undefined.
- Inputs the source reads but never uses are dropped:
  - `preTaxData.mortgageInterest` and `preTaxData.propertyTaxes`;
  - `itemizedTotal`, `age`, `preTaxDeductions`, `federalTaxableIncome`, `stateTax` and `nycTax` in the guidance inputs;
  - the `filingStatus` argument of `getItemizedDeductions`;
  - the `state` argument of `estimatePotentialItemized`.
- The `|| 0` fallbacks for missing pre-tax fields are not modelled, because the record always has all six fields.
- The `|| single` fallback of the NY standard deduction is not modelled, because every filing status has an entry.
- The federal and NYC breakdowns that `calculateTax` computes but never shows are not modelled.
- The NYC flag is kept independent of the state, as it is inside `calculateTax`. Clearing it for NJ happens only in the UI.
- Married-separate filers get the single additional-Medicare threshold, because the source tests only for `married`. The model follows the code.
- Guidance.GenerateGuidance computes the state marginal rate once. Its specification takes the combined and NY rates as a `GuidanceRates` value, and `RatesFor` ties that value to the schedules.
