/**
 * Progressive bracket taxation and the marginal-rate lookups
 * (calculateBracketTax, getStateMarginalRate and getFederalMarginalRate in
 * js/calculations.js).
 */
module Brackets {
  import opened TaxData

  /** One entry of the breakdown: the part of income taxed inside one bracket. */
  datatype Slice = Slice(rate: real, amount: real, tax: real)

  /** The breakdown entry for `amount` taxed at bracket `b`'s rate. */
  function SliceOf(b: Bracket, amount: real): Slice {
    Slice(b.rate, amount, amount * b.rate)
  }

  /** The `{ tax, breakdown }` pair that calculateBracketTax returns. */
  datatype BracketOutcome = BracketOutcome(tax: real, breakdown: seq<Slice>)

  /** max - min of a bounded bracket. */
  function Width(b: Bracket): real
    requires b.max.Finite?
  {
    b.max.value - b.min
  }

  /**
   * The part of `remaining` that falls in bracket `b`:
   * `Math.min(remaining, max - min)`, where `Infinity - min` is `Infinity`.
   */
  function TaxableIn(remaining: real, b: Bracket): real {
    match b.max
    case Unbounded => remaining
    case Finite(_) => MinReal(remaining, Width(b))
  }

  /**
   * Reference definition of the slice loop: walk the brackets in order,
   * tax the part of the remaining income that fits in each, record the
   * non-empty parts, and stop when the income is used up or the brackets
   * run out.
   */
  function TaxOn(income: real, brackets: Schedule): real
    decreases |brackets|
  {
    if |brackets| == 0 || income <= 0.0 then 0.0
    else
      var amount := TaxableIn(income, brackets[0]);
      amount * brackets[0].rate + TaxOn(income - amount, brackets[1..])
  }

  function SlicesOn(income: real, brackets: Schedule): seq<Slice>
    decreases |brackets|
  {
    if |brackets| == 0 || income <= 0.0 then []
    else
      var b := brackets[0];
      var amount := TaxableIn(income, b);
      (if amount > 0.0 then [SliceOf(b, amount)] else []) + SlicesOn(income - amount, brackets[1..])
  }

  function BracketTax(income: real, brackets: Schedule): BracketOutcome
  {
    BracketOutcome(TaxOn(income, brackets), SlicesOn(income, brackets))
  }

  /** calculateBracketTax: the marginal-slice loop. */
  method CalculateBracketTax(income: real, brackets: Schedule) returns (tax: real, breakdown: seq<Slice>)
    ensures BracketOutcome(tax, breakdown) == BracketTax(income, brackets)
    ensures income <= 0.0 ==> tax == 0.0 && breakdown == []
  {
    tax := 0.0;
    var remaining := income;
    breakdown := [];
    var i := 0;
    assert brackets[i..] == brackets;
    while i < |brackets| && remaining > 0.0
      invariant 0 <= i <= |brackets|
      invariant tax + BracketTax(remaining, brackets[i..]).tax == BracketTax(income, brackets).tax
      invariant breakdown + BracketTax(remaining, brackets[i..]).breakdown == BracketTax(income, brackets).breakdown
      invariant i == 0 ==> remaining == income
    {
      var bracket := brackets[i];
      var taxableInBracket := TaxableIn(remaining, bracket);
      var taxInBracket := taxableInBracket * bracket.rate;
      assert brackets[i..][1..] == brackets[i + 1..];
      assert Slice(bracket.rate, taxableInBracket, taxInBracket) == SliceOf(bracket, taxableInBracket);
      if taxableInBracket > 0.0 {
        breakdown := breakdown + [Slice(bracket.rate, taxableInBracket, taxInBracket)];
      }
      tax := tax + taxInBracket;
      remaining := remaining - taxableInBracket;
      i := i + 1;
    }
  }

  // ------------------------------------------------------------------
  // What the breakdown is on a well-formed schedule
  // ------------------------------------------------------------------

  function SumAmounts(bd: seq<Slice>): real {
    if bd == [] then 0.0 else bd[0].amount + SumAmounts(bd[1..])
  }

  function SumTaxes(bd: seq<Slice>): real {
    if bd == [] then 0.0 else bd[0].tax + SumTaxes(bd[1..])
  }

  /**
   * A schedule or a tail of one: the brackets chain, their minimums rise and
   * the last one is unbounded.
   */
  predicate Ladder(s: Schedule) {
    && |s| > 0
    && s[|s| - 1].max == Unbounded
    && Chained(s)
    && (forall i, j :: 0 <= i < |s| && 0 <= j < |s| && j == i + 1 ==> s[i].min < s[j].min)
  }

  /**
   * `bd` is the breakdown of income `x` over `s`: entry k belongs to bracket
   * k and has its rate, a positive amount and amount × rate as tax; every
   * entry but the last fills its bracket; the last bracket used is the one
   * that contains `x`, and its entry is the part of `x` above that bracket's
   * minimum.
   */
  predicate SlicesOf(s: Schedule, x: real, bd: seq<Slice>) {
    && 0 < |bd| <= |s|
    && (forall k :: 0 <= k < |bd| ==> 0.0 < bd[k].amount && bd[k] == SliceOf(s[k], bd[k].amount))
    && (forall k :: 0 <= k < |bd| - 1 ==> s[k].max.Finite? && bd[k].amount == Width(s[k]))
    && s[|bd| - 1].min < x
    && (s[|bd| - 1].max.Finite? ==> x <= s[|bd| - 1].max.value)
    && bd[|bd| - 1].amount == x - s[|bd| - 1].min
  }

  lemma SumsOfCons(x: Slice, t: seq<Slice>)
    ensures SumAmounts([x] + t) == x.amount + SumAmounts(t)
    ensures SumTaxes([x] + t) == x.tax + SumTaxes(t)
  {
    assert ([x] + t)[1..] == t;
  }

  lemma {:induction false} LadderTail(s: Schedule)
    requires Ladder(s) && |s| > 1
    ensures Ladder(s[1..])
  {
    var t := s[1..];
    forall i, j | 0 <= i < j < |t| && j == i + 1
      ensures t[i].max == Finite(t[j].min)
    {
      assert t[i] == s[i + 1] && t[j] == s[j + 1];
    }
    forall i, j | 0 <= i < j < |t| && j == i + 1
      ensures t[i].min < t[j].min
    {
      assert t[i] == s[i + 1] && t[j] == s[j + 1];
    }
  }

  /** One unfolding of the slices when the first bracket takes a positive amount. */
  lemma SlicesStep(s: Schedule, r: real)
    requires |s| > 0 && r > 0.0 && TaxableIn(r, s[0]) > 0.0
    ensures SlicesOn(r, s) == [SliceOf(s[0], TaxableIn(r, s[0]))] + SlicesOn(r - TaxableIn(r, s[0]), s[1..])
  {
  }

  /** Prepending a full first bracket to the slices of a ladder's tail gives the slices of the ladder. */
  lemma SlicesOfCons(s: Schedule, x: real, slice: Slice, tl: seq<Slice>)
    requires |s| > 1 && SlicesOf(s[1..], x, tl)
    requires s[0].max.Finite? && 0.0 < Width(s[0]) && slice == SliceOf(s[0], Width(s[0]))
    ensures SlicesOf(s, x, [slice] + tl)
  {
    var bd := [slice] + tl;
    forall k | 0 < k < |bd|
      ensures bd[k] == tl[k - 1] && s[k] == s[1..][k - 1]
    {
    }
    assert bd[|bd| - 1] == tl[|tl| - 1] && s[|bd| - 1] == s[1..][|tl| - 1];
  }

  /** An income that fits in the first bracket is one slice. */
  lemma SlicesOneBracket(s: Schedule, r: real)
    requires |s| > 0 && r > 0.0 && (s[0].max.Unbounded? || r <= Width(s[0]))
    ensures SlicesOf(s, s[0].min + r, SlicesOn(r, s))
    ensures SumAmounts(SlicesOn(r, s)) == r
  {
    var b := s[0];
    var slice := SliceOf(b, r);
    assert TaxableIn(r, b) == r;
    SlicesStep(s, r);
    assert SlicesOn(r - TaxableIn(r, b), s[1..]) == [];
    assert SlicesOn(r, s) == [slice] + [] == [slice];
    SumsOfCons(slice, []);
  }

  /** An income above the first bracket of a ladder fills that bracket and leaves the rest to the tail. */
  lemma FullFirstBracket(s: Schedule, r: real)
    requires Ladder(s) && r > 0.0 && s[0].max.Finite? && r > Width(s[0])
    ensures |s| > 1 && Ladder(s[1..])
    ensures 0.0 < Width(s[0]) && TaxableIn(r, s[0]) == Width(s[0])
    ensures r - TaxableIn(r, s[0]) > 0.0
    ensures s[1..][0].min + (r - TaxableIn(r, s[0])) == s[0].min + r
  {
    assert |s| > 1 && s[0].max == Finite(s[1].min) && s[0].min < s[1].min;
    LadderTail(s);
  }

  /** The step of `SlicesFollowLadder` past a full first bracket. */
  lemma SlicesAfterFullBracket(s: Schedule, r: real)
    requires |s| > 1 && r > 0.0 && s[0].max.Finite? && 0.0 < Width(s[0]) && TaxableIn(r, s[0]) == Width(s[0])
    requires r - TaxableIn(r, s[0]) > 0.0 && s[1..][0].min + (r - TaxableIn(r, s[0])) == s[0].min + r
    requires SlicesOf(s[1..], s[1..][0].min + (r - TaxableIn(r, s[0])), SlicesOn(r - TaxableIn(r, s[0]), s[1..]))
    requires SumAmounts(SlicesOn(r - TaxableIn(r, s[0]), s[1..])) == r - TaxableIn(r, s[0])
    ensures SlicesOf(s, s[0].min + r, SlicesOn(r, s))
    ensures SumAmounts(SlicesOn(r, s)) == r
  {
    var rest := SlicesOn(r - TaxableIn(r, s[0]), s[1..]);
    var slice := SliceOf(s[0], TaxableIn(r, s[0]));
    SlicesStep(s, r);
    SumsOfCons(slice, rest);
    SlicesOfCons(s, s[0].min + r, slice, rest);
  }

  /** The slice loop, run on a ladder from its first minimum, cuts `r` into the slices of `s[0].min + r`. */
  lemma {:induction false} SlicesFollowLadder(s: Schedule, r: real)
    requires Ladder(s) && r > 0.0
    ensures SlicesOf(s, s[0].min + r, SlicesOn(r, s))
    ensures SumAmounts(SlicesOn(r, s)) == r
    decreases |s|, 1
  {
    if s[0].max.Unbounded? || r <= Width(s[0]) {
      SlicesOneBracket(s, r);
    } else {
      SlicesPastFirstBracket(s, r);
    }
  }

  /** The case of `SlicesFollowLadder` where `r` overflows the first bracket. */
  lemma {:induction false} SlicesPastFirstBracket(s: Schedule, r: real)
    requires Ladder(s) && r > 0.0 && s[0].max.Finite? && r > Width(s[0])
    ensures SlicesOf(s, s[0].min + r, SlicesOn(r, s))
    ensures SumAmounts(SlicesOn(r, s)) == r
    decreases |s|, 0
  {
    FullFirstBracket(s, r);
    SlicesFollowLadder(s[1..], r - TaxableIn(r, s[0]));
    SlicesAfterFullBracket(s, r);
  }

  /** When no bracket has a negative width, the tax is the sum of the taxes of the slices. */
  lemma {:induction false} TaxIsSumOfSlices(s: Schedule, r: real)
    requires NonNegativeWidths(s)
    ensures TaxOn(r, s) == SumTaxes(SlicesOn(r, s))
    decreases |s|, 1
  {
    if |s| > 0 && r > 0.0 {
      TaxIsSumOfSlicesStep(s, r);
    }
  }

  /** The case of `TaxIsSumOfSlices` where the first bracket is reached. */
  lemma {:induction false} TaxIsSumOfSlicesStep(s: Schedule, r: real)
    requires NonNegativeWidths(s) && |s| > 0 && r > 0.0
    ensures TaxOn(r, s) == SumTaxes(SlicesOn(r, s))
    decreases |s|, 0
  {
    var amount := TaxableIn(r, s[0]);
    var rest := SlicesOn(r - amount, s[1..]);
    NonNegativeWidthsTail(s);
    TaxIsSumOfSlices(s[1..], r - amount);
    TaxStep(s, r);
    if amount > 0.0 {
      SlicesStep(s, r);
      SumsOfCons(SliceOf(s[0], amount), rest);
    } else {
      assert SlicesOn(r, s) == rest by {
        assert [] + rest == rest;
      }
    }
  }

  lemma NonNegativeWidthsTail(s: Schedule)
    requires NonNegativeWidths(s) && |s| > 0
    ensures NonNegativeWidths(s[1..])
  {
    forall i | 0 <= i < |s[1..]| ensures s[1..][i] == s[i + 1] { }
  }

  /**
   * On a well-formed schedule and a positive income, the breakdown follows
   * the brackets in ascending order, its amounts add up to the income, and
   * the tax is the sum of amount × rate over it.
   */
  lemma BreakdownFollowsSchedule(s: Schedule, income: real)
    requires WellFormed(s) && income > 0.0
    ensures SlicesOf(s, income, BracketTax(income, s).breakdown)
    ensures SumAmounts(BracketTax(income, s).breakdown) == income
    ensures BracketTax(income, s).tax == SumTaxes(BracketTax(income, s).breakdown)
  {
    WellFormedBounds(s);
    SlicesFollowLadder(s, income);
    TaxIsSumOfSlices(s, income);
  }

  // ------------------------------------------------------------------
  // Monotonicity and the slope bound
  // ------------------------------------------------------------------

  /** Every rate of `s` lies in [0, top]. */
  predicate RatesWithinTop(s: Schedule, top: real) {
    forall i :: 0 <= i < |s| ==> 0.0 <= s[i].rate <= top
  }

  /** No bounded bracket has a negative width. */
  predicate NonNegativeWidths(s: Schedule) {
    forall i :: 0 <= i < |s| && s[i].max.Finite? ==> s[i].min <= s[i].max.value
  }

  /**
   * What one bracket takes from two ordered incomes: the amounts taken and
   * the remainders are both ordered, and together they differ by no more
   * than the incomes do. An income of 0 or less takes nothing.
   */
  lemma TakeOrdered(b: Bracket, r1: real, r2: real)
    requires r1 <= r2 && 0.0 < r2
    requires b.max.Finite? ==> b.min <= b.max.value
    ensures var a1 := if r1 <= 0.0 then 0.0 else TaxableIn(r1, b);
      var a2 := TaxableIn(r2, b);
      var q1 := if r1 <= 0.0 then 0.0 else r1 - a1;
      var q2 := r2 - a2;
      && 0.0 <= a1 <= a2 && 0.0 <= q1 <= q2
      && (a2 - a1) + (q2 - q1) <= r2 - r1
  {
  }

  /** The arithmetic of one step of `BracketTaxSlope`. */
  lemma SlopeStep(a1: real, a2: real, q1: real, q2: real, t1: real, t2: real, rate: real, top: real, d: real)
    requires 0.0 <= a1 <= a2 && 0.0 <= rate <= top
    requires t1 <= t2 <= t1 + top * (q2 - q1)
    requires (a2 - a1) + (q2 - q1) <= d
    ensures a1 * rate + t1 <= a2 * rate + t2 <= a1 * rate + t1 + top * d
  {
    ProductNonNegative(a2 - a1, rate);
    ProductNonNegative(a2 - a1, top - rate);
    ProductNonNegative(top, d - ((a2 - a1) + (q2 - q1)));
  }

  /** One unfolding of the tax on a non-empty schedule and a positive income. */
  lemma TaxStep(s: Schedule, r: real)
    requires |s| > 0 && r > 0.0
    ensures TaxOn(r, s) == TaxableIn(r, s[0]) * s[0].rate + TaxOn(r - TaxableIn(r, s[0]), s[1..])
  {
  }

  /** The remainders left after the first bracket keep the order of the incomes. */
  lemma RemaindersOrdered(b: Bracket, r1: real, r2: real)
    requires r1 <= r2
    requires b.max.Finite? ==> b.min <= b.max.value
    ensures r1 - TaxableIn(r1, b) <= r2 - TaxableIn(r2, b)
  {
  }

  lemma BoundsOfTail(s: Schedule, top: real)
    requires |s| > 0 && RatesWithinTop(s, top) && NonNegativeWidths(s)
    ensures RatesWithinTop(s[1..], top) && NonNegativeWidths(s[1..])
    ensures 0.0 <= s[0].rate <= top && (s[0].max.Finite? ==> s[0].min <= s[0].max.value)
  {
    forall i | 0 <= i < |s[1..]| ensures s[1..][i] == s[i + 1] { }
  }

  /** `BracketTaxSlope` when neither income is taxed. */
  lemma SlopeNoTax(s: Schedule, top: real, r1: real, r2: real)
    requires |s| == 0 || r2 <= 0.0
    requires 0.0 <= top && r1 <= r2
    ensures TaxOn(r1, s) <= TaxOn(r2, s) <= TaxOn(r1, s) + top * (r2 - r1)
  {
    ProductNonNegative(top, r2 - r1);
  }

  /** The first-bracket step of `BracketTaxSlope` when only the larger income is positive. */
  lemma SlopeStepFromZero(s: Schedule, top: real, r1: real, r2: real)
    requires |s| > 0 && r1 <= 0.0 < r2 && 0.0 <= s[0].rate <= top
    requires s[0].max.Finite? ==> s[0].min <= s[0].max.value
    requires var q2 := r2 - TaxableIn(r2, s[0]);
      TaxOn(0.0, s[1..]) <= TaxOn(q2, s[1..]) <= TaxOn(0.0, s[1..]) + top * (q2 - 0.0)
    ensures TaxOn(r1, s) <= TaxOn(r2, s) <= TaxOn(r1, s) + top * (r2 - r1)
  {
    var b := s[0];
    var a2 := TaxableIn(r2, b);
    var q2 := r2 - a2;
    TaxStep(s, r2);
    assert 0.0 <= a2 && 0.0 <= q2 && a2 + q2 <= r2 - r1 by { TakeOrdered(b, r1, r2); }
    SlopeStep(0.0, a2, 0.0, q2, 0.0, TaxOn(q2, s[1..]), b.rate, top, r2 - r1);
  }

  /** The first-bracket step of `BracketTaxSlope` when both incomes are positive. */
  lemma SlopeStepPositive(s: Schedule, top: real, r1: real, r2: real)
    requires |s| > 0 && 0.0 < r1 <= r2 && 0.0 <= s[0].rate <= top
    requires s[0].max.Finite? ==> s[0].min <= s[0].max.value
    requires var q1 := r1 - TaxableIn(r1, s[0]);
      var q2 := r2 - TaxableIn(r2, s[0]);
      TaxOn(q1, s[1..]) <= TaxOn(q2, s[1..]) <= TaxOn(q1, s[1..]) + top * (q2 - q1)
    ensures TaxOn(r1, s) <= TaxOn(r2, s) <= TaxOn(r1, s) + top * (r2 - r1)
  {
    var b := s[0];
    var a1 := TaxableIn(r1, b);
    var a2 := TaxableIn(r2, b);
    var q1 := r1 - a1;
    var q2 := r2 - a2;
    TakeOrderedPositive(b, r1, r2);
    SlopeStep(a1, a2, q1, q2, TaxOn(q1, s[1..]), TaxOn(q2, s[1..]), b.rate, top, r2 - r1);
    TaxStep(s, r1);
    TaxStep(s, r2);
  }

  /** `TakeOrdered` for two positive incomes. */
  lemma TakeOrderedPositive(b: Bracket, r1: real, r2: real)
    requires 0.0 < r1 <= r2
    requires b.max.Finite? ==> b.min <= b.max.value
    ensures 0.0 <= TaxableIn(r1, b) <= TaxableIn(r2, b)
    ensures 0.0 <= r1 - TaxableIn(r1, b) <= r2 - TaxableIn(r2, b)
    ensures (TaxableIn(r2, b) - TaxableIn(r1, b)) + ((r2 - TaxableIn(r2, b)) - (r1 - TaxableIn(r1, b))) <= r2 - r1
  {
    TakeOrdered(b, r1, r2);
  }

  /**
   * Bracket tax is non-decreasing in income and rises at most at the top
   * rate: for r1 <= r2, tax(r1) <= tax(r2) <= tax(r1) + top × (r2 - r1).
   */
  lemma {:induction false} BracketTaxSlope(s: Schedule, top: real, r1: real, r2: real)
    requires 0.0 <= top && RatesWithinTop(s, top) && NonNegativeWidths(s)
    requires r1 <= r2
    ensures TaxOn(r1, s) <= TaxOn(r2, s) <= TaxOn(r1, s) + top * (r2 - r1)
    decreases |s|, 1
  {
    if |s| == 0 || r2 <= 0.0 {
      SlopeNoTax(s, top, r1, r2);
    } else if r1 <= 0.0 {
      SlopeFromZero(s, top, r1, r2);
    } else {
      SlopePositive(s, top, r1, r2);
    }
  }

  /** The case of `BracketTaxSlope` where only the larger income is positive. */
  lemma {:induction false} SlopeFromZero(s: Schedule, top: real, r1: real, r2: real)
    requires 0.0 <= top && RatesWithinTop(s, top) && NonNegativeWidths(s)
    requires |s| > 0 && r1 <= 0.0 < r2
    ensures TaxOn(r1, s) <= TaxOn(r2, s) <= TaxOn(r1, s) + top * (r2 - r1)
    decreases |s|, 0
  {
    BoundsOfTail(s, top);
    BracketTaxSlope(s[1..], top, 0.0, r2 - TaxableIn(r2, s[0]));
    SlopeStepFromZero(s, top, r1, r2);
  }

  /** The case of `BracketTaxSlope` where both incomes are positive. */
  lemma {:induction false} SlopePositive(s: Schedule, top: real, r1: real, r2: real)
    requires 0.0 <= top && RatesWithinTop(s, top) && NonNegativeWidths(s)
    requires |s| > 0 && 0.0 < r1 <= r2
    ensures TaxOn(r1, s) <= TaxOn(r2, s) <= TaxOn(r1, s) + top * (r2 - r1)
    decreases |s|, 0
  {
    BoundsOfTail(s, top);
    RemaindersOrdered(s[0], r1, r2);
    BracketTaxSlope(s[1..], top, r1 - TaxableIn(r1, s[0]), r2 - TaxableIn(r2, s[0]));
    SlopeStepPositive(s, top, r1, r2);
  }

  lemma ProductNonNegative(x: real, y: real)
    requires 0.0 <= x && 0.0 <= y
    ensures 0.0 <= x * y
  {
  }

  /** A well-formed schedule has non-negative widths and every rate in [0, TopRate]. */
  lemma WellFormedBounds(s: Schedule)
    requires WellFormed(s)
    ensures RatesWithinTop(s, TopRate(s)) && NonNegativeWidths(s)
    ensures Ladder(s)
  {
    RatesWithin(s);
    forall i | 0 <= i < |s| && s[i].max.Finite?
      ensures s[i].min <= s[i].max.value
    {
      assert i < |s| - 1;
      assert s[i].min < s[i + 1].min;
    }
  }

  /**
   * On a well-formed schedule the tax on a non-negative income is between 0
   * and the top rate times the income.
   */
  lemma BracketTaxBounds(s: Schedule, income: real)
    requires WellFormed(s) && income >= 0.0
    ensures 0.0 <= BracketTax(income, s).tax <= TopRate(s) * income
  {
    WellFormedBounds(s);
    BracketTaxSlope(s, TopRate(s), 0.0, income);
  }

  // ------------------------------------------------------------------
  // Marginal rates
  // ------------------------------------------------------------------

  /**
   * Index of the highest of the first `n` brackets whose minimum lies
   * strictly below `income`, or -1 when there is none.
   */
  function HighestBelow(s: Schedule, income: real, n: nat): (k: int)
    requires n <= |s|
    ensures -1 <= k < n
    ensures k >= 0 ==> s[k].min < income
    ensures forall j :: k < j < n ==> income <= s[j].min
    decreases n
  {
    if n == 0 then -1
    else if income > s[n - 1].min then n - 1
    else HighestBelow(s, income, n - 1)
  }

  /**
   * The marginal rate: the rate of the highest bracket whose minimum is
   * strictly below the income, or the first bracket's rate when none is.
   */
  function MarginalRate(s: Schedule, income: real): real
    requires |s| > 0
  {
    var k := HighestBelow(s, income, |s|);
    if k >= 0 then s[k].rate else s[0].rate
  }

  /** The descending scan with early return shared by both marginal-rate lookups. */
  method LookupMarginalRate(brackets: Schedule, income: real) returns (rate: real)
    requires |brackets| > 0
    ensures rate == MarginalRate(brackets, income)
  {
    var i := |brackets| - 1;
    while i >= 0
      invariant -1 <= i < |brackets|
      invariant HighestBelow(brackets, income, i + 1) == HighestBelow(brackets, income, |brackets|)
    {
      if income > brackets[i].min {
        return brackets[i].rate;
      }
      i := i - 1;
    }
    return brackets[0].rate;
  }

  /** On a well-formed schedule the marginal rate is one of its rates, so it lies between the first and the top rate. */
  lemma MarginalRateWithin(s: Schedule, income: real)
    requires WellFormed(s)
    ensures s[0].rate <= MarginalRate(s, income) <= TopRate(s)
  {
    RatesWithin(s);
  }

  /**
   * On a well-formed schedule and a positive income, the marginal rate is
   * the rate of the last slice of the breakdown: the bracket the income's
   * last dollar falls in.
   */
  lemma MarginalRateIsLastSliceRate(s: Schedule, income: real)
    requires WellFormed(s) && income > 0.0
    ensures var bd := BracketTax(income, s).breakdown;
      |bd| > 0 && MarginalRate(s, income) == bd[|bd| - 1].rate
  {
    BreakdownFollowsSchedule(s, income);
    var bd := BracketTax(income, s).breakdown;
    var last := |bd| - 1;
    var k := HighestBelow(s, income, |s|);
    if last < |s| - 1 {
      assert s[last].max == Finite(s[last + 1].min);
      forall j | last < j < |s|
        ensures income <= s[j].min
      {
        if j > last + 1 { assert s[last + 1].min < s[j].min; }
      }
    }
    assert k == last;
  }

  /** getStateMarginalRate: the marginal rate in the state table for the filer's key. */
  method StateMarginalRate(state: StateCode, income: real, status: FilingStatus) returns (rate: real)
    ensures rate == MarginalRate(StateBrackets(state, FilingStatusKey(status)), income)
    ensures 0.014 <= rate <= 0.109
  {
    var key := FilingStatusKey(status);
    var brackets := StateBrackets(state, key);
    StateScheduleShape(state, key);
    MarginalRateWithin(brackets, income);
    rate := LookupMarginalRate(brackets, income);
  }

  /** getFederalMarginalRate: the marginal rate in the year's federal table for the filing status. */
  method FederalMarginalRate(year: int, income: real, status: FilingStatus) returns (rate: real)
    requires SupportedYear(year)
    ensures rate == MarginalRate(FederalBrackets(year, status), income)
    ensures 0.10 <= rate <= 0.37
  {
    var brackets := FederalBrackets(year, status);
    FederalScheduleShape(year, status);
    MarginalRateWithin(brackets, income);
    rate := LookupMarginalRate(brackets, income);
  }
}
