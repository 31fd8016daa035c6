/**
 * Properties of the guidance report: which items appear, in which list and
 * order, and what the savings total adds up.
 */
module GuidanceProperties {
  import opened TaxData
  import opened Brackets
  import opened Deductions
  import opened Guidance

  /** The report holds an item of `rule`, in the list of the rule's category. */
  predicate Emitted(report: Report, rule: Rule) {
    exists item :: item in ListOf(report, CategoryOf(rule)) && item.rule == rule
  }

  /** Rules listed in strictly increasing block order. */
  predicate RankedRules(rules: seq<Rule>) {
    forall i, j :: 0 <= i < j < |rules| ==> Rank(rules[i]) < Rank(rules[j])
  }

  /** Items listed in strictly increasing block order of their rules. */
  predicate RankedItems(items: seq<Item>) {
    forall i, j :: 0 <= i < j < |items| ==> Rank(items[i].rule) < Rank(items[j].rule)
  }

  // ------------------------------------------------------------------
  // Collect, for any list of rules
  // ------------------------------------------------------------------

  /** Every collected item is the item of a listed rule whose guard holds. */
  lemma {:induction false} CollectSound(g: GuidanceInputs, rates: GuidanceRates, rules: seq<Rule>, item: Item)
    requires SupportedYear(g.year) && item in Collect(g, rates, rules)
    ensures item.rule in rules && Fires(g, rates, item.rule) && item == ItemFor(g, rates, item.rule)
    decreases |rules|
  {
    var n := |rules| - 1;
    if item in Collect(g, rates, rules[..n]) {
      CollectSound(g, rates, rules[..n], item);
    } else {
      assert item in Opt(g, rates, rules[n]);
    }
  }

  /** The item of every listed rule whose guard holds is collected. */
  lemma {:induction false} CollectComplete(g: GuidanceInputs, rates: GuidanceRates, rules: seq<Rule>, r: Rule)
    requires SupportedYear(g.year) && r in rules && Fires(g, rates, r)
    ensures ItemFor(g, rates, r) in Collect(g, rates, rules)
    decreases |rules|
  {
    var n := |rules| - 1;
    if rules[n] != r {
      var k :| 0 <= k < |rules| && rules[k] == r;
      assert rules[..n][k] == r;
      CollectComplete(g, rates, rules[..n], r);
    }
  }

  /** Collecting keeps the order of the rules. */
  lemma {:induction false} CollectRanked(g: GuidanceInputs, rates: GuidanceRates, rules: seq<Rule>)
    requires SupportedYear(g.year) && RankedRules(rules)
    ensures RankedItems(Collect(g, rates, rules))
    decreases |rules|
  {
    if |rules| > 0 {
      var n := |rules| - 1;
      RankedPrefix(rules, n);
      CollectRanked(g, rates, rules[..n]);
      ItemsRankBelow(g, rates, rules[..n], rules[n]);
      OptOfRule(g, rates, rules[n]);
      RankedAppend(Collect(g, rates, rules[..n]), Opt(g, rates, rules[n]), rules[n]);
    }
  }

  /** Dropping the last rule keeps the order, and every other rule ranks below the last. */
  lemma RankedPrefix(rules: seq<Rule>, n: nat)
    requires RankedRules(rules) && n == |rules| - 1
    ensures RankedRules(rules[..n])
    ensures forall k :: 0 <= k < n ==> Rank(rules[..n][k]) < Rank(rules[n])
  {
  }

  /** Items collected from rules ranked below `r` rank below `r`. */
  lemma ItemsRankBelow(g: GuidanceInputs, rates: GuidanceRates, rules: seq<Rule>, r: Rule)
    requires SupportedYear(g.year)
    requires forall k :: 0 <= k < |rules| ==> Rank(rules[k]) < Rank(r)
    ensures forall i :: 0 <= i < |Collect(g, rates, rules)| ==> Rank(Collect(g, rates, rules)[i].rule) < Rank(r)
  {
    var items := Collect(g, rates, rules);
    forall i | 0 <= i < |items|
      ensures Rank(items[i].rule) < Rank(r)
    {
      CollectSound(g, rates, rules, items[i]);
    }
  }

  /** A rule contributes at most one item, and only of itself. */
  lemma OptOfRule(g: GuidanceInputs, rates: GuidanceRates, r: Rule)
    requires SupportedYear(g.year)
    ensures |Opt(g, rates, r)| <= 1 && forall x :: x in Opt(g, rates, r) ==> x.rule == r
  {
  }

  /** Appending at most one item of a rule ranked above every listed item keeps the order. */
  lemma RankedAppend(prefix: seq<Item>, extra: seq<Item>, r: Rule)
    requires RankedItems(prefix) && |extra| <= 1
    requires forall i :: 0 <= i < |prefix| ==> Rank(prefix[i].rule) < Rank(r)
    requires forall x :: x in extra ==> x.rule == r
    ensures RankedItems(prefix + extra)
  {
    var all := prefix + extra;
    forall i, j | 0 <= i < j < |all|
      ensures Rank(all[i].rule) < Rank(all[j].rule)
    {
      if j >= |prefix| {
        assert all[j] in extra;
      }
    }
  }

  /** A neighbour-by-neighbour check of `RankedRules`, which Dafny can evaluate on a rule list. */
  predicate RanksRise(rules: seq<Rule>)
    decreases |rules|
  {
    |rules| <= 1 || (Rank(rules[0]) < Rank(rules[1]) && RanksRise(rules[1..]))
  }

  /** Ranks rising between neighbours rise along the whole list. */
  lemma {:induction false} RanksRiseRanked(rules: seq<Rule>)
    requires RanksRise(rules)
    ensures RankedRules(rules)
    decreases |rules|
  {
    if |rules| > 1 {
      var tail := rules[1..];
      RanksRiseRanked(tail);
      forall i, j | 0 <= i < j < |rules|
        ensures Rank(rules[i]) < Rank(rules[j])
      {
        if i > 0 {
          assert rules[i] == tail[i - 1] && rules[j] == tail[j - 1];
        } else if j > 1 {
          assert rules[1] == tail[0] && rules[j] == tail[j - 1];
        }
      }
    }
  }

  // ------------------------------------------------------------------
  // The report of generateGuidance
  // ------------------------------------------------------------------

  /** Each rule belongs to the rule list of its own category. */
  lemma RuleListed(r: Rule)
    ensures r in RulesOf(CategoryOf(r))
  {
  }

  /** An item of the report is the item of a rule whose guard holds, in that rule's category list. */
  lemma ReportSound(g: GuidanceInputs, rates: GuidanceRates, c: Category, item: Item)
    requires SupportedYear(g.year) && item in ListOf(Build(g, rates), c)
    ensures CategoryOf(item.rule) == c
    ensures Fires(g, rates, item.rule) && item == ItemFor(g, rates, item.rule)
  {
    ListOfBuild(g, rates, c);
    CollectSound(g, rates, RulesOf(c), item);
    CategoryOfListed(item.rule, c);
  }

  /** A rule listed under a category belongs to that category. */
  lemma CategoryOfListed(r: Rule, c: Category)
    requires r in RulesOf(c)
    ensures CategoryOf(r) == c
  {
    match c {
      case Immediate => ListedUnderImmediate(r);
      case Retirement => ListedUnderRetirement(r);
      case Deduction => ListedUnderDeduction(r);
      case Planning => ListedUnderPlanning(r);
    }
  }

  lemma ListedUnderImmediate(r: Rule)
    requires r in ImmediateRules
    ensures CategoryOf(r) == Immediate
  {
  }

  lemma ListedUnderRetirement(r: Rule)
    requires r in RetirementRules
    ensures CategoryOf(r) == Retirement
  {
  }

  lemma ListedUnderDeduction(r: Rule)
    requires r in DeductionRules
    ensures CategoryOf(r) == Deduction
  {
  }

  lemma ListedUnderPlanning(r: Rule)
    requires r in PlanningRules
    ensures CategoryOf(r) == Planning
  {
  }

  /** Each list of the report collects the rules of its category. */
  lemma ListOfBuild(g: GuidanceInputs, rates: GuidanceRates, c: Category)
    requires SupportedYear(g.year)
    ensures ListOf(Build(g, rates), c) == Collect(g, rates, RulesOf(c))
  {
  }

  /** A rule's item is in the report exactly when the rule's guard holds. */
  lemma EmittedIffFires(g: GuidanceInputs, rates: GuidanceRates, r: Rule)
    requires SupportedYear(g.year)
    ensures Emitted(Build(g, rates), r) <==> Fires(g, rates, r)
  {
    var c := CategoryOf(r);
    assert ListOf(Build(g, rates), c) == Collect(g, rates, RulesOf(c));
    if Fires(g, rates, r) {
      RuleListed(r);
      CollectComplete(g, rates, RulesOf(c), r);
    }
    if Emitted(Build(g, rates), r) {
      var item :| item in ListOf(Build(g, rates), c) && item.rule == r;
      ReportSound(g, rates, c, item);
    }
  }

  /** Every list follows the order of the blocks in generateGuidance. */
  lemma ReportRanked(g: GuidanceInputs, rates: GuidanceRates, c: Category)
    requires SupportedYear(g.year)
    ensures RankedItems(ListOf(Build(g, rates), c))
  {
    ListOfBuild(g, rates, c);
    RulesRanked(c);
    CollectRanked(g, rates, RulesOf(c));
  }

  /** Each category lists its rules in block order. */
  lemma RulesRanked(c: Category)
    ensures RankedRules(RulesOf(c))
  {
    match c {
      case Immediate => ListRanked(ImmediateRules);
      case Retirement => ListRanked(RetirementRules);
      case Deduction => ListRanked(DeductionRules);
      case Planning => ListRanked(PlanningRules);
    }
  }

  /** A rule list of the report is in block order (checked neighbour by neighbour). */
  lemma ListRanked(rules: seq<Rule>)
    requires rules in {ImmediateRules, RetirementRules, DeductionRules, PlanningRules}
    ensures RankedRules(rules)
  {
    assert RanksRise(rules) by {
      if rules == ImmediateRules {
        assert RanksRise(ImmediateRules);
      } else if rules == RetirementRules {
        assert RanksRise(RetirementRules);
      } else if rules == DeductionRules {
        assert RanksRise(DeductionRules);
      } else {
        assert RanksRise(PlanningRules);
      }
    }
    RanksRiseRanked(rules);
  }

  /** Without self-employment income none of the six self-employment items appears anywhere. */
  lemma NoSelfEmploymentItems(g: GuidanceInputs, rates: GuidanceRates, c: Category, item: Item)
    requires SupportedYear(g.year) && g.netSelfEmploymentIncome <= 0.0
    requires item in ListOf(Build(g, rates), c)
    ensures !IsSelfEmploymentRule(item.rule)
  {
    ReportSound(g, rates, c, item);
  }

  /** With self-employment income the health-insurance and business-expense items always appear. */
  lemma SelfEmploymentBasics(g: GuidanceInputs, rates: GuidanceRates)
    requires SupportedYear(g.year) && g.netSelfEmploymentIncome > 0.0
    ensures Emitted(Build(g, rates), SelfEmployedHealth) && Emitted(Build(g, rates), BusinessExpenses)
  {
    EmittedIffFires(g, rates, SelfEmployedHealth);
    EmittedIffFires(g, rates, BusinessExpenses);
  }

  /** With wages the retirement list holds exactly one of the two 401(k) items; without wages neither. */
  lemma OneFourOhOneKItem(g: GuidanceInputs, rates: GuidanceRates)
    requires SupportedYear(g.year)
    ensures g.grossIncome > 0.0 ==> (Emitted(Build(g, rates), Maximize401k) <==> !Emitted(Build(g, rates), Maximized401k))
    ensures g.grossIncome <= 0.0 ==> !Emitted(Build(g, rates), Maximize401k) && !Emitted(Build(g, rates), Maximized401k)
    ensures Emitted(Build(g, rates), Maximize401k)
      <==> g.grossIncome > 0.0 && g.preTax.retirement401k < ContributionLimits(g.year).traditional401k
  {
    EmittedIffFires(g, rates, Maximize401k);
    EmittedIffFires(g, rates, Maximized401k);
  }

  /** The traditional IRA item appears exactly when there is IRA room and the income test passes. */
  lemma IraItemCondition(g: GuidanceInputs, rates: GuidanceRates)
    requires SupportedYear(g.year)
    ensures Emitted(Build(g, rates), TraditionalIra)
      <==> g.preTax.traditionalIRA < ContributionLimits(g.year).ira
           && (g.totalIncome < 150000.0 || (g.filingStatus == Married && g.totalIncome < 230000.0))
  {
    EmittedIffFires(g, rates, TraditionalIra);
  }

  /** The SEP-IRA item appears exactly when a quarter of net SE income, capped, exceeds 5000. */
  lemma SepItemCondition(g: GuidanceInputs, rates: GuidanceRates)
    requires SupportedYear(g.year)
    ensures Emitted(Build(g, rates), SepIra)
      <==> g.netSelfEmploymentIncome > 0.0
           && MinReal(g.netSelfEmploymentIncome * 0.25, ContributionLimits(g.year).sepIRA) > 5000.0
  {
    EmittedIffFires(g, rates, SepIra);
  }

  /** The income-timing item is always pushed, so the planning list is never empty. */
  lemma PlanningNeverEmpty(g: GuidanceInputs, rates: GuidanceRates)
    requires SupportedYear(g.year)
    ensures Emitted(Build(g, rates), IncomeTiming)
    ensures |Build(g, rates).planning| > 0
  {
    EmittedIffFires(g, rates, IncomeTiming);
  }

  // ------------------------------------------------------------------
  // The savings total
  // ------------------------------------------------------------------

  lemma CountedSavingsSnoc(items: seq<Item>, x: Item)
    ensures CountedSavings(items + [x]) == CountedSavings(items) + Contribution(x)
  {
    assert (items + [x])[..|items|] == items;
  }

  /** The counted savings of a list collected from `rules` is what the rules add. */
  lemma {:induction false} CountedSavingsOfCollect(g: GuidanceInputs, rates: GuidanceRates, rules: seq<Rule>)
    requires SupportedYear(g.year)
    ensures CountedSavings(Collect(g, rates, rules)) == SavingsOver(g, rates, rules)
    decreases |rules|
  {
    if |rules| > 0 {
      var n := |rules| - 1;
      var init := rules[..n];
      CountedSavingsOfCollect(g, rates, init);
      CountedSavingsOfOpt(g, rates, Collect(g, rates, init), rules[n]);
      assert rules == init + [rules[n]];
      CollectSnoc(g, rates, init, rules[n]);
    }
  }

  /** Collecting one more rule adds to the counted savings exactly what that rule's block adds. */
  lemma CountedSavingsOfOpt(g: GuidanceInputs, rates: GuidanceRates, prefix: seq<Item>, r: Rule)
    requires SupportedYear(g.year)
    ensures CountedSavings(prefix + Opt(g, rates, r)) == CountedSavings(prefix) + RuleSavings(g, rates, r)
  {
    if Fires(g, rates, r) {
      CountedSavingsSnoc(prefix, ItemFor(g, rates, r));
    } else {
      assert prefix + Opt(g, rates, r) == prefix;
    }
  }

  /** totalPotentialSavings is the sum of the savings of the counted items in the report. */
  lemma SavingsTotalIsCounted(g: GuidanceInputs, rates: GuidanceRates)
    requires SupportedYear(g.year)
    ensures TotalSavings(g, rates) == TotalCounted(Build(g, rates))
  {
    CountedSavingsOfCollect(g, rates, ImmediateRules);
    CountedSavingsOfCollect(g, rates, RetirementRules);
    CountedSavingsOfCollect(g, rates, DeductionRules);
    CountedSavingsOfCollect(g, rates, PlanningRules);
  }

  /**
   * Exactly eight items carry a savings figure: the six counted ones, the
   * NY 529 item and the tax-loss-harvesting item.
   */
  lemma SavingsFigureRules(g: GuidanceInputs, rates: GuidanceRates, r: Rule)
    requires SupportedYear(g.year)
    ensures Savings(g, rates, r).Some? <==> Counted(r) || r == Ny529 || r == TaxLossHarvesting
  {
  }

  /** A rule outside the counted six adds nothing, whether or not it fires. */
  lemma UncountedAddsNothing(g: GuidanceInputs, rates: GuidanceRates, r: Rule)
    requires SupportedYear(g.year) && !Counted(r)
    ensures RuleSavings(g, rates, r) == 0
  {
  }

  /**
   * Only the SEP, QBI, HSA, FSA, 401(k) and IRA items add to the total: the
   * NY 529 and tax-loss-harvesting savings are shown but not added.
   */
  lemma OnlySixRulesCount(g: GuidanceInputs, rates: GuidanceRates)
    requires SupportedYear(g.year)
    ensures TotalSavings(g, rates) == RuleSavings(g, rates, SepIra) + RuleSavings(g, rates, QualifiedBusinessIncome)
      + RuleSavings(g, rates, MaximizeHsa) + RuleSavings(g, rates, FlexibleSpending) + RuleSavings(g, rates, Maximize401k)
      + RuleSavings(g, rates, TraditionalIra)
    ensures RuleSavings(g, rates, Ny529) == 0 && RuleSavings(g, rates, TaxLossHarvesting) == 0
  {
    ImmediateSavingsUnrolled(g, rates);
    RetirementSavingsUnrolled(g, rates);
    DeductionSavingsUnrolled(g, rates);
    PlanningSavingsUnrolled(g, rates);
    forall r | !Counted(r)
      ensures RuleSavings(g, rates, r) == 0
    {
      UncountedAddsNothing(g, rates, r);
    }
  }

  /**
   * The combined rate lies between the federal rate plus the lowest state
   * rate and the federal rate plus the top state rate plus the NYC
   * surcharge; the NY rate lies within the NY schedule.
   */
  lemma RatesWithinSchedules(g: GuidanceInputs)
    ensures g.marginalRate + 0.014 <= RatesFor(g).combined <= g.marginalRate + 0.109 + NycSurcharge
    ensures 0.014 <= RatesFor(g).newYork <= 0.109
  {
    var key := FilingStatusKey(g.filingStatus);
    StateScheduleShape(g.state, key);
    MarginalRateWithin(StateBrackets(g.state, key), g.agi);
    StateScheduleShape(NY, key);
    MarginalRateWithin(StateBrackets(NY, key), g.agi);
  }

  /** With non-negative rates no emitted item shows negative savings. */
  lemma SavingsNonNegative(g: GuidanceInputs, rates: GuidanceRates, c: Category, item: Item)
    requires SupportedYear(g.year) && g.marginalRate >= 0.0 && rates.combined >= 0.0 && rates.newYork >= 0.0
    requires item in ListOf(Build(g, rates), c) && item.savings.Some?
    ensures item.savings.value >= 0
  {
    ReportSound(g, rates, c, item);
    var combined := rates.combined;
    var limits := ContributionLimits(g.year);
    match item.rule
    case SepIra => SavingsRounded(SepContribution(g), combined);
    case QualifiedBusinessIncome => SavingsRounded(g.netSelfEmploymentIncome * 0.20, g.marginalRate);
    case MaximizeHsa => SavingsRounded(HsaLimit(g) - g.preTax.hsaContributions, combined);
    case FlexibleSpending => SavingsRounded(FsaEstimate(g), combined);
    case Maximize401k => SavingsRounded(limits.traditional401k - g.preTax.retirement401k, combined);
    case TraditionalIra => SavingsRounded(limits.ira - g.preTax.traditionalIRA, combined);
    case Ny529 => SavingsRounded(Ny529Limit(g), rates.newYork);
    case TaxLossHarvesting => SavingsRounded(3000.0, combined);
    case _ =>
  }

  /** Rounding a non-negative product gives a non-negative whole number. */
  lemma SavingsRounded(amount: real, rate: real)
    requires amount >= 0.0 && rate >= 0.0
    ensures RoundedSavings(amount, rate) >= 0
  {
    ProductNonNegative(amount, rate);
  }

  /** The NYC surcharge is the top rate of both NYC schedules. */
  lemma NycSurchargeIsTopRate(key: FilingStatus)
    requires IsStateKey(key)
    ensures TopRate(NycBrackets(key)) == NycSurcharge
  {
    NycScheduleShape(key);
  }
}
