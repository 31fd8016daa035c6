/**
 * Per-year tax tables of the estimator and the lookups over them
 * (js/tax-data.js). The module-level "selected year" of the source is an
 * explicit `year` parameter here; a lookup is defined only for the years
 * the tables cover.
 */
module TaxData {

  /** The four federal filing statuses of the form. */
  datatype FilingStatus = Single | Married | MarriedSeparate | HeadOfHousehold

  /** The two state jurisdictions the estimator knows. */
  datatype StateCode = NJ | NY

  /** Upper end of a bracket; `Unbounded` is the source's `Infinity`. */
  datatype Bound = Finite(value: real) | Unbounded

  /** One row of a progressive schedule: income in [min, max) is taxed at `rate`. */
  datatype Bracket = Bracket(min: real, max: Bound, rate: real)

  type Schedule = seq<Bracket>

  /** Self-employment tax constants of one year. */
  datatype SEConstants = SEConstants(
    socialSecurityRate: real,
    medicareRate: real,
    additionalMedicareRate: real,
    socialSecurityWageBase: real,
    additionalMedicareThresholdSingle: real,
    additionalMedicareThresholdMarried: real,
    netEarningsMultiplier: real)

  /** Contribution limits of one year. */
  datatype Limits = Limits(
    traditional401k: real,
    traditional401kOver50: real,
    traditional401k60to63: real,
    ira: real,
    iraOver50: real,
    hsaIndividual: real,
    hsaFamily: real,
    fsaHealth: real,
    fsaDependent: real,
    sepIRA: real,
    solo401k: real)

  function MinReal(a: real, b: real): real {
    if a <= b then a else b
  }

  function MaxReal(a: real, b: real): real {
    if a >= b then a else b
  }

  /** The years every table has an entry for. */
  predicate SupportedYear(year: int) {
    2024 <= year <= 2026
  }

  /** The keys the NJ, NY and NYC tables are defined for. */
  predicate IsStateKey(key: FilingStatus) {
    key == Single || key == Married
  }

  // ------------------------------------------------------------------
  // Shape of a schedule
  // ------------------------------------------------------------------

  /**
   * The shape every table has: it starts at 0, each bracket ends where the
   * next one starts (so only the last one is unbounded), minimums and rates
   * strictly rise, and no rate is negative.
   */
  predicate WellFormed(s: Schedule) {
    && |s| > 0
    && s[0].min == 0.0
    && 0.0 <= s[0].rate
    && s[|s| - 1].max == Unbounded
    && Chained(s)
    && (forall i, j :: 0 <= i < j < |s| ==> s[i].min < s[j].min && s[i].rate < s[j].rate)
  }

  /** Each bracket ends where the next one starts. */
  predicate Chained(s: Schedule) {
    forall i, j :: 0 <= i < |s| && 0 <= j < |s| && j == i + 1 ==> s[i].max == Finite(s[j].min)
  }

  /** A bracket-by-bracket check of the chained part of `WellFormed`, which Dafny can evaluate on a table. */
  predicate ChainsUp(s: Schedule)
    decreases |s|
  {
    |s| <= 1 ||
    (s[0].max == Finite(s[1].min) && s[0].min < s[1].min && s[0].rate < s[1].rate && ChainsUp(s[1..]))
  }

  /** A table that starts at 0 and whose last bracket is unbounded. */
  predicate Spans(s: Schedule) {
    |s| > 0 && s[0].min == 0.0 && s[|s| - 1].max == Unbounded
  }

  function TopRate(s: Schedule): real
    requires |s| > 0
  {
    s[|s| - 1].rate
  }

  // ------------------------------------------------------------------
  // Federal brackets (federalBracketsByYear)
  // ------------------------------------------------------------------

  /** getFederalBrackets: the table of the selected year for the filing status. */
  function FederalBrackets(year: int, status: FilingStatus): (s: Schedule)
    requires SupportedYear(year)
    ensures Spans(s) && |s| == 7
    ensures s[0].rate == 0.10 && TopRate(s) == 0.37
  {
    if year == 2024 then FederalBrackets2024(status)
    else if year == 2025 then FederalBrackets2025(status)
    else FederalBrackets2026(status)
  }

  function FederalBrackets2024(status: FilingStatus): Schedule {
    match status
    case Single => [
      Bracket(0.0, Finite(11600.0), 0.10),
      Bracket(11600.0, Finite(47150.0), 0.12),
      Bracket(47150.0, Finite(100525.0), 0.22),
      Bracket(100525.0, Finite(191950.0), 0.24),
      Bracket(191950.0, Finite(243725.0), 0.32),
      Bracket(243725.0, Finite(609350.0), 0.35),
      Bracket(609350.0, Unbounded, 0.37)]
    case Married => [
      Bracket(0.0, Finite(23200.0), 0.10),
      Bracket(23200.0, Finite(94300.0), 0.12),
      Bracket(94300.0, Finite(201050.0), 0.22),
      Bracket(201050.0, Finite(383900.0), 0.24),
      Bracket(383900.0, Finite(487450.0), 0.32),
      Bracket(487450.0, Finite(731200.0), 0.35),
      Bracket(731200.0, Unbounded, 0.37)]
    case MarriedSeparate => [
      Bracket(0.0, Finite(11600.0), 0.10),
      Bracket(11600.0, Finite(47150.0), 0.12),
      Bracket(47150.0, Finite(100525.0), 0.22),
      Bracket(100525.0, Finite(191950.0), 0.24),
      Bracket(191950.0, Finite(243725.0), 0.32),
      Bracket(243725.0, Finite(365600.0), 0.35),
      Bracket(365600.0, Unbounded, 0.37)]
    case HeadOfHousehold => [
      Bracket(0.0, Finite(16550.0), 0.10),
      Bracket(16550.0, Finite(63100.0), 0.12),
      Bracket(63100.0, Finite(100500.0), 0.22),
      Bracket(100500.0, Finite(191950.0), 0.24),
      Bracket(191950.0, Finite(243700.0), 0.32),
      Bracket(243700.0, Finite(609350.0), 0.35),
      Bracket(609350.0, Unbounded, 0.37)]
  }

  function FederalBrackets2025(status: FilingStatus): Schedule {
    match status
    case Single => [
      Bracket(0.0, Finite(11925.0), 0.10),
      Bracket(11925.0, Finite(48475.0), 0.12),
      Bracket(48475.0, Finite(103350.0), 0.22),
      Bracket(103350.0, Finite(197300.0), 0.24),
      Bracket(197300.0, Finite(250525.0), 0.32),
      Bracket(250525.0, Finite(626350.0), 0.35),
      Bracket(626350.0, Unbounded, 0.37)]
    case Married => [
      Bracket(0.0, Finite(23850.0), 0.10),
      Bracket(23850.0, Finite(96950.0), 0.12),
      Bracket(96950.0, Finite(206700.0), 0.22),
      Bracket(206700.0, Finite(394600.0), 0.24),
      Bracket(394600.0, Finite(501050.0), 0.32),
      Bracket(501050.0, Finite(751600.0), 0.35),
      Bracket(751600.0, Unbounded, 0.37)]
    case MarriedSeparate => [
      Bracket(0.0, Finite(11925.0), 0.10),
      Bracket(11925.0, Finite(48475.0), 0.12),
      Bracket(48475.0, Finite(103350.0), 0.22),
      Bracket(103350.0, Finite(197300.0), 0.24),
      Bracket(197300.0, Finite(250525.0), 0.32),
      Bracket(250525.0, Finite(375800.0), 0.35),
      Bracket(375800.0, Unbounded, 0.37)]
    case HeadOfHousehold => [
      Bracket(0.0, Finite(17000.0), 0.10),
      Bracket(17000.0, Finite(64850.0), 0.12),
      Bracket(64850.0, Finite(103350.0), 0.22),
      Bracket(103350.0, Finite(197300.0), 0.24),
      Bracket(197300.0, Finite(250500.0), 0.32),
      Bracket(250500.0, Finite(626350.0), 0.35),
      Bracket(626350.0, Unbounded, 0.37)]
  }

  function FederalBrackets2026(status: FilingStatus): Schedule {
    match status
    case Single => [
      Bracket(0.0, Finite(12400.0), 0.10),
      Bracket(12400.0, Finite(50400.0), 0.12),
      Bracket(50400.0, Finite(105700.0), 0.22),
      Bracket(105700.0, Finite(203150.0), 0.24),
      Bracket(203150.0, Finite(256200.0), 0.32),
      Bracket(256200.0, Finite(640600.0), 0.35),
      Bracket(640600.0, Unbounded, 0.37)]
    case Married => [
      Bracket(0.0, Finite(24800.0), 0.10),
      Bracket(24800.0, Finite(100800.0), 0.12),
      Bracket(100800.0, Finite(211400.0), 0.22),
      Bracket(211400.0, Finite(406300.0), 0.24),
      Bracket(406300.0, Finite(512350.0), 0.32),
      Bracket(512350.0, Finite(768700.0), 0.35),
      Bracket(768700.0, Unbounded, 0.37)]
    case MarriedSeparate => [
      Bracket(0.0, Finite(12400.0), 0.10),
      Bracket(12400.0, Finite(50400.0), 0.12),
      Bracket(50400.0, Finite(105700.0), 0.22),
      Bracket(105700.0, Finite(203150.0), 0.24),
      Bracket(203150.0, Finite(256200.0), 0.32),
      Bracket(256200.0, Finite(384350.0), 0.35),
      Bracket(384350.0, Unbounded, 0.37)]
    case HeadOfHousehold => [
      Bracket(0.0, Finite(17650.0), 0.10),
      Bracket(17650.0, Finite(67450.0), 0.12),
      Bracket(67450.0, Finite(105700.0), 0.22),
      Bracket(105700.0, Finite(203150.0), 0.24),
      Bracket(203150.0, Finite(256200.0), 0.32),
      Bracket(256200.0, Finite(640600.0), 0.35),
      Bracket(640600.0, Unbounded, 0.37)]
  }

  // ------------------------------------------------------------------
  // Standard deductions, SE constants, limits, NY standard deduction
  // ------------------------------------------------------------------

  /** getStandardDeductions, looked up for the filing status. */
  function StandardDeduction(year: int, status: FilingStatus): (d: real)
    requires SupportedYear(year)
    ensures 14600.0 <= d <= 32200.0
    ensures status == Single || status == MarriedSeparate ==> d <= 16100.0
    ensures status == Married ==> 29200.0 <= d
  {
    match status
    case Single | MarriedSeparate =>
      if year == 2024 then 14600.0 else if year == 2025 then 15000.0 else 16100.0
    case Married =>
      if year == 2024 then 29200.0 else if year == 2025 then 30000.0 else 32200.0
    case HeadOfHousehold =>
      if year == 2024 then 21900.0 else if year == 2025 then 22500.0 else 24150.0
  }

  /** getSETaxConstants: only the Social Security wage base changes from year to year. */
  function SETaxConstants(year: int): (c: SEConstants)
    requires SupportedYear(year)
    ensures c.socialSecurityRate + c.medicareRate == 0.153 && c.additionalMedicareRate == 0.009
    ensures 168600.0 <= c.socialSecurityWageBase <= 184500.0
    ensures 0.0 < c.additionalMedicareThresholdSingle < c.additionalMedicareThresholdMarried
    ensures c.netEarningsMultiplier == 0.9235
  {
    SEConstants(
      socialSecurityRate := 0.124,
      medicareRate := 0.029,
      additionalMedicareRate := 0.009,
      socialSecurityWageBase := if year == 2024 then 168600.0 else if year == 2025 then 176100.0 else 184500.0,
      additionalMedicareThresholdSingle := 200000.0,
      additionalMedicareThresholdMarried := 250000.0,
      netEarningsMultiplier := 0.9235)
  }

  /**
   * getContributionLimits: every catch-up limit exceeds the base limit, the
   * family HSA limit exceeds the individual one, and the SEP-IRA and solo
   * 401(k) limits agree.
   */
  function ContributionLimits(year: int): (l: Limits)
    requires SupportedYear(year)
    ensures 0.0 < l.traditional401k < l.traditional401kOver50 <= l.traditional401k60to63
    ensures 0.0 < l.ira < l.iraOver50
    ensures 0.0 < l.hsaIndividual < l.hsaFamily
    ensures 0.0 < l.fsaHealth && 0.0 < l.fsaDependent
    ensures 0.0 < l.sepIRA && l.sepIRA == l.solo401k
  {
    if year == 2024 then
      Limits(23000.0, 30500.0, 30500.0, 7000.0, 8000.0, 4150.0, 8300.0, 3200.0, 5000.0, 69000.0, 69000.0)
    else if year == 2025 then
      Limits(23500.0, 31000.0, 34750.0, 7000.0, 8000.0, 4300.0, 8550.0, 3300.0, 5000.0, 70000.0, 70000.0)
    else
      Limits(24500.0, 32500.0, 35750.0, 7500.0, 8600.0, 4400.0, 8750.0, 3400.0, 5000.0, 72000.0, 72000.0)
  }

  /** The New York standard deduction; the table is the same for every covered year. */
  function NyStandardDeduction(year: int, status: FilingStatus): (d: real)
    requires SupportedYear(year)
    ensures 8000.0 <= d <= 16050.0
    ensures d == 16050.0 <==> status == Married
  {
    match status
    case Single | MarriedSeparate => 8000.0
    case Married => 16050.0
    case HeadOfHousehold => 11200.0
  }

  // ------------------------------------------------------------------
  // State and city brackets (the same for every year)
  // ------------------------------------------------------------------

  /** The New Jersey table: from 1.4% to an unbounded 10.75% bracket. */
  function NjBrackets(key: FilingStatus): (s: Schedule)
    requires IsStateKey(key)
    ensures Spans(s) && s[0].rate == 0.014 && TopRate(s) == 0.1075
  {
    if key == Single then [
      Bracket(0.0, Finite(20000.0), 0.014),
      Bracket(20000.0, Finite(35000.0), 0.0175),
      Bracket(35000.0, Finite(40000.0), 0.035),
      Bracket(40000.0, Finite(75000.0), 0.05525),
      Bracket(75000.0, Finite(500000.0), 0.0637),
      Bracket(500000.0, Finite(1000000.0), 0.0897),
      Bracket(1000000.0, Unbounded, 0.1075)]
    else [
      Bracket(0.0, Finite(20000.0), 0.014),
      Bracket(20000.0, Finite(50000.0), 0.0175),
      Bracket(50000.0, Finite(70000.0), 0.0245),
      Bracket(70000.0, Finite(80000.0), 0.035),
      Bracket(80000.0, Finite(150000.0), 0.05525),
      Bracket(150000.0, Finite(500000.0), 0.0637),
      Bracket(500000.0, Finite(1000000.0), 0.0897),
      Bracket(1000000.0, Unbounded, 0.1075)]
  }

  /** The New York table: from 4% to an unbounded 10.9% bracket. */
  function NyBrackets(key: FilingStatus): (s: Schedule)
    requires IsStateKey(key)
    ensures Spans(s) && s[0].rate == 0.04 && TopRate(s) == 0.109
  {
    if key == Single then [
      Bracket(0.0, Finite(8500.0), 0.04),
      Bracket(8500.0, Finite(11700.0), 0.045),
      Bracket(11700.0, Finite(13900.0), 0.0525),
      Bracket(13900.0, Finite(80650.0), 0.0550),
      Bracket(80650.0, Finite(215400.0), 0.06),
      Bracket(215400.0, Finite(1077550.0), 0.0685),
      Bracket(1077550.0, Finite(5000000.0), 0.0965),
      Bracket(5000000.0, Finite(25000000.0), 0.103),
      Bracket(25000000.0, Unbounded, 0.109)]
    else [
      Bracket(0.0, Finite(17150.0), 0.04),
      Bracket(17150.0, Finite(23600.0), 0.045),
      Bracket(23600.0, Finite(27900.0), 0.0525),
      Bracket(27900.0, Finite(161550.0), 0.0550),
      Bracket(161550.0, Finite(323200.0), 0.06),
      Bracket(323200.0, Finite(2155350.0), 0.0685),
      Bracket(2155350.0, Finite(5000000.0), 0.0965),
      Bracket(5000000.0, Finite(25000000.0), 0.103),
      Bracket(25000000.0, Unbounded, 0.109)]
  }

  /** The New York City table: from 3.078% to an unbounded 3.876% bracket. */
  function NycBrackets(key: FilingStatus): (s: Schedule)
    requires IsStateKey(key)
    ensures Spans(s) && s[0].rate == 0.03078 && TopRate(s) == 0.03876
  {
    if key == Single then [
      Bracket(0.0, Finite(12000.0), 0.03078),
      Bracket(12000.0, Finite(25000.0), 0.03762),
      Bracket(25000.0, Finite(50000.0), 0.03819),
      Bracket(50000.0, Unbounded, 0.03876)]
    else [
      Bracket(0.0, Finite(21600.0), 0.03078),
      Bracket(21600.0, Finite(45000.0), 0.03762),
      Bracket(45000.0, Finite(90000.0), 0.03819),
      Bracket(90000.0, Unbounded, 0.03876)]
  }

  /** The state table chosen by `state === 'NJ' ? njBrackets : nyBrackets`. */
  function StateBrackets(state: StateCode, key: FilingStatus): (s: Schedule)
    requires IsStateKey(key)
    ensures Spans(s)
    ensures s[0].rate == (if state == NJ then 0.014 else 0.04)
    ensures TopRate(s) == (if state == NJ then 0.1075 else 0.109)
  {
    if state == NJ then NjBrackets(key) else NyBrackets(key)
  }

  /**
   * The key of the state and city tables: both married statuses share the
   * married table, every other status uses the single one.
   */
  function FilingStatusKey(status: FilingStatus): (key: FilingStatus)
    ensures IsStateKey(key)
    ensures key == Married <==> (status == Married || status == MarriedSeparate)
    ensures key == Single <==> (status == Single || status == HeadOfHousehold)
  {
    match status
    case Married | MarriedSeparate => Married
    case Single | HeadOfHousehold => Single
  }

  // ------------------------------------------------------------------
  // Properties of the tables
  // ------------------------------------------------------------------

  /** The bracket-by-bracket check implies the chained and rising parts of `WellFormed`. */
  lemma {:induction false} ChainsUpLinks(s: Schedule)
    requires ChainsUp(s)
    ensures Chained(s)
    ensures forall i, j :: 0 <= i < j < |s| ==> s[i].min < s[j].min && s[i].rate < s[j].rate
  {
    if |s| > 1 {
      ChainsUpLinks(s[1..]);
      forall i, j | 0 <= i < j < |s|
        ensures s[i].min < s[j].min && s[i].rate < s[j].rate
      {
        if i > 0 {
          assert s[i] == s[1..][i - 1] && s[j] == s[1..][j - 1];
        } else if j > 1 {
          assert s[1] == s[1..][0] && s[j] == s[1..][j - 1];
        }
      }
      forall i, j | 0 <= i < j < |s| && j == i + 1
        ensures s[i].max == Finite(s[j].min)
      {
        if i > 0 {
          assert s[i] == s[1..][i - 1] && s[j] == s[1..][j - 1];
        }
      }
    }
  }

  /** In a well-formed schedule every rate lies between the first and the top rate. */
  lemma RatesWithin(s: Schedule)
    requires WellFormed(s)
    ensures forall i :: 0 <= i < |s| ==> s[0].rate <= s[i].rate <= TopRate(s)
  {
    forall i | 0 <= i < |s|
      ensures s[0].rate <= s[i].rate <= TopRate(s)
    {
      if 0 < i { assert s[0].rate < s[i].rate; }
      if i < |s| - 1 { assert s[i].rate < s[|s| - 1].rate; }
    }
  }

  /**
   * The shape of every federal table: seven brackets passing the
   * bracket-by-bracket check, from 0 at 10% to an unbounded top bracket at 37%.
   */
  predicate FederalShaped(s: Schedule) {
    && ChainsUp(s) && |s| == 7
    && s[0].min == 0.0 && s[0].rate == 0.10
    && s[6].max == Unbounded && s[6].rate == 0.37
  }

  /** A schedule passing the bracket-by-bracket check from 0 to an unbounded top is well formed. */
  lemma ChainsUpWellFormed(s: Schedule)
    requires ChainsUp(s) && |s| > 0 && s[0].min == 0.0 && 0.0 <= s[0].rate && s[|s| - 1].max == Unbounded
    ensures WellFormed(s)
  {
    ChainsUpLinks(s);
  }

  /** The federal tables pass the bracket-by-bracket check. */
  lemma FederalChainsUp(year: int, status: FilingStatus)
    requires SupportedYear(year)
    ensures FederalShaped(FederalBrackets(year, status))
  {
    if year == 2024 {
      FederalChainsUp2024(status);
    } else if year == 2025 {
      FederalChainsUp2025(status);
    } else {
      FederalChainsUp2026(status);
    }
  }

  lemma FederalChainsUp2024(status: FilingStatus)
    ensures FederalShaped(FederalBrackets2024(status))
  {
    match status
    case Single => assert FederalShaped(FederalBrackets2024(Single));
    case Married => assert FederalShaped(FederalBrackets2024(Married));
    case MarriedSeparate => assert FederalShaped(FederalBrackets2024(MarriedSeparate));
    case HeadOfHousehold => assert FederalShaped(FederalBrackets2024(HeadOfHousehold));
  }

  lemma FederalChainsUp2025(status: FilingStatus)
    ensures FederalShaped(FederalBrackets2025(status))
  {
    match status
    case Single => assert FederalShaped(FederalBrackets2025(Single));
    case Married => assert FederalShaped(FederalBrackets2025(Married));
    case MarriedSeparate => assert FederalShaped(FederalBrackets2025(MarriedSeparate));
    case HeadOfHousehold => assert FederalShaped(FederalBrackets2025(HeadOfHousehold));
  }

  lemma FederalChainsUp2026(status: FilingStatus)
    ensures FederalShaped(FederalBrackets2026(status))
  {
    match status
    case Single => assert FederalShaped(FederalBrackets2026(Single));
    case Married => assert FederalShaped(FederalBrackets2026(Married));
    case MarriedSeparate => assert FederalShaped(FederalBrackets2026(MarriedSeparate));
    case HeadOfHousehold => assert FederalShaped(FederalBrackets2026(HeadOfHousehold));
  }

  /**
   * Every federal schedule is well formed, starts at a 10% rate and tops out
   * at 37%.
   */
  lemma FederalScheduleShape(year: int, status: FilingStatus)
    requires SupportedYear(year)
    ensures WellFormed(FederalBrackets(year, status))
    ensures FederalBrackets(year, status)[0].rate == 0.10
    ensures TopRate(FederalBrackets(year, status)) == 0.37
  {
    var s := FederalBrackets(year, status);
    FederalChainsUp(year, status);
    ChainsUpWellFormed(s);
  }

  /** The state tables pass the bracket-by-bracket check and run from 0 to an unbounded top bracket. */
  lemma StateChainsUp(state: StateCode, key: FilingStatus)
    requires IsStateKey(key)
    ensures ChainsUp(StateBrackets(state, key)) && Spans(StateBrackets(state, key))
  {
    if state == NJ { NjChainsUp(key); } else { NyChainsUp(key); }
  }

  lemma NjChainsUp(key: FilingStatus)
    requires IsStateKey(key)
    ensures ChainsUp(NjBrackets(key)) && Spans(NjBrackets(key))
  {
    if key == Single { assert ChainsUp(NjBrackets(Single)); } else { assert ChainsUp(NjBrackets(Married)); }
  }

  lemma NyChainsUp(key: FilingStatus)
    requires IsStateKey(key)
    ensures ChainsUp(NyBrackets(key)) && Spans(NyBrackets(key))
  {
    if key == Single { assert ChainsUp(NyBrackets(Single)); } else { assert ChainsUp(NyBrackets(Married)); }
  }

  /** Both state tables are well formed for both keys; their rates lie in [1.4%, 10.9%]. */
  lemma StateScheduleShape(state: StateCode, key: FilingStatus)
    requires IsStateKey(key)
    ensures WellFormed(StateBrackets(state, key))
    ensures 0.014 <= StateBrackets(state, key)[0].rate
    ensures TopRate(StateBrackets(state, key)) <= 0.109
  {
    StateChainsUp(state, key);
    ChainsUpLinks(StateBrackets(state, key));
  }

  /** Both NYC tables are well formed and top out at 3.876%. */
  lemma NycScheduleShape(key: FilingStatus)
    requires IsStateKey(key)
    ensures WellFormed(NycBrackets(key))
    ensures NycBrackets(key)[0].rate == 0.03078
    ensures TopRate(NycBrackets(key)) == 0.03876
  {
    if key == Single { assert ChainsUp(NycBrackets(Single)); } else { assert ChainsUp(NycBrackets(Married)); }
    ChainsUpLinks(NycBrackets(key));
  }

  /**
   * For every covered year the married standard deduction is twice the
   * single one, married-separate equals single, and head of household lies
   * between them.
   */
  lemma StandardDeductionShape(year: int)
    requires SupportedYear(year)
    ensures StandardDeduction(year, Married) == 2.0 * StandardDeduction(year, Single)
    ensures StandardDeduction(year, MarriedSeparate) == StandardDeduction(year, Single)
    ensures StandardDeduction(year, Single) < StandardDeduction(year, HeadOfHousehold) < StandardDeduction(year, Married)
  {
  }

  /**
   * For every covered year the net-earnings factor is 92.35%, the married
   * additional-Medicare threshold exceeds the single one, the wage base and
   * the thresholds are positive, and the three rates are 12.4%, 2.9% and 0.9%.
   */
  lemma SEConstantsShape(year: int)
    requires SupportedYear(year)
    ensures SETaxConstants(year).netEarningsMultiplier == 0.9235
    ensures SETaxConstants(year).additionalMedicareThresholdMarried > SETaxConstants(year).additionalMedicareThresholdSingle
    ensures SETaxConstants(year).socialSecurityWageBase > 0.0
    ensures SETaxConstants(year).socialSecurityRate == 0.124 && SETaxConstants(year).medicareRate == 0.029
    ensures SETaxConstants(year).additionalMedicareRate == 0.009
    ensures SETaxConstants(year).additionalMedicareThresholdSingle > 0.0
  {
  }
}
