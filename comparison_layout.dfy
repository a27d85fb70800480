/**
 * The savings summary shown under the side-by-side comparison
 * (src/components/ComparisonLayout.tsx): how much the cheaper option saves,
 * as an amount and as a percentage of the dearer total, and which option it is.
 */
module ComparisonLayout {
  import opened Wrappers
  import opened CostTypes

  /** Configuration 1 or configuration 2; `None` stands for the source's `null`. */
  datatype Choice = First | Second

  datatype SavingsSummary = SavingsSummary(savings: real, savingsPercentage: real, cheaperOption: Option<Choice>)

  function Abs(x: real): (r: real)
    ensures r >= 0.0 && (r == x || r == -x)
  {
    if x < 0.0 then -x else x
  }

  function Max(x: real, y: real): (r: real)
    ensures r >= x && r >= y && (r == x || r == y)
  {
    if x >= y then x else y
  }

  /**
   * The precondition excludes exactly the totals for which the source would
   * divide a non-zero amount by zero (one total 0, the other negative).
   */
  function Summarize(breakdown1: GenericCostBreakdown, breakdown2: GenericCostBreakdown): (s: SavingsSummary)
    requires Max(breakdown1.total, breakdown2.total) == 0.0 ==> breakdown1.total == 0.0 && breakdown2.total == 0.0
    ensures s.savings >= 0.0
    ensures s.savings == breakdown1.total - breakdown2.total || s.savings == breakdown2.total - breakdown1.total
    ensures s.cheaperOption == Some(First) <==> breakdown1.total < breakdown2.total
    ensures s.cheaperOption == Some(Second) <==> breakdown1.total > breakdown2.total
    ensures s.cheaperOption.None? <==> breakdown1.total == breakdown2.total
    ensures breakdown1.total == 0.0 && breakdown2.total == 0.0 ==> s.savingsPercentage == 0.0
    ensures breakdown1.total != 0.0 || breakdown2.total != 0.0 ==>
              s.savingsPercentage * Max(breakdown1.total, breakdown2.total) == 100.0 * s.savings
  {
    var total1 := breakdown1.total;
    var total2 := breakdown2.total;
    var savings := Abs(total1 - total2);
    var savingsPercentage :=
      if total1 != 0.0 || total2 != 0.0 then Percentage(savings, Max(total1, total2)) else 0.0;
    var cheaperOption :=
      if total1 < total2 then Some(First) else if total1 > total2 then Some(Second) else None;
    SavingsSummary(savings, savingsPercentage, cheaperOption)
  }

  /** The savings banner is rendered only when there is a cheaper option. */
  predicate ShowsSavingsBanner(s: SavingsSummary)
  {
    s.cheaperOption.Some?
  }

  function Swap(c: Option<Choice>): Option<Choice>
  {
    match c
    case Some(First) => Some(Second)
    case Some(Second) => Some(First)
    case None => None
  }

  // ---------------------------------------------------------------------
  // Properties
  // ---------------------------------------------------------------------

  /** Swapping the two configurations swaps the cheaper option and keeps both savings figures. */
  lemma SummarizeSymmetric(b1: GenericCostBreakdown, b2: GenericCostBreakdown)
    requires Max(b1.total, b2.total) == 0.0 ==> b1.total == 0.0 && b2.total == 0.0
    ensures Summarize(b2, b1).cheaperOption == Swap(Summarize(b1, b2).cheaperOption)
    ensures Summarize(b2, b1).savings == Summarize(b1, b2).savings
    ensures Summarize(b2, b1).savingsPercentage == Summarize(b1, b2).savingsPercentage
  {
  }

  /** Two zero totals give a zero percentage. */
  lemma BothZeroNoPercentage(b1: GenericCostBreakdown, b2: GenericCostBreakdown)
    requires b1.total == 0.0 && b2.total == 0.0
    ensures Summarize(b1, b2).savingsPercentage == 0.0
  {
  }

  /**
   * With non-negative totals not both zero the percentage lies in [0, 100];
   * it is 100 when exactly one total is zero.
   */
  lemma PercentageBounded(b1: GenericCostBreakdown, b2: GenericCostBreakdown)
    requires b1.total >= 0.0 && b2.total >= 0.0
    requires b1.total != 0.0 || b2.total != 0.0
    ensures Max(b1.total, b2.total) > 0.0
    ensures 0.0 <= Summarize(b1, b2).savingsPercentage <= 100.0
    ensures (b1.total == 0.0) != (b2.total == 0.0) ==> Summarize(b1, b2).savingsPercentage == 100.0
  {
    var m := Max(b1.total, b2.total);
    assert 0.0 <= Summarize(b1, b2).savings <= m;
  }

  /** The banner appears exactly when the totals differ. */
  lemma BannerIffTotalsDiffer(b1: GenericCostBreakdown, b2: GenericCostBreakdown)
    requires Max(b1.total, b2.total) == 0.0 ==> b1.total == 0.0 && b2.total == 0.0
    ensures ShowsSavingsBanner(Summarize(b1, b2)) <==> b1.total != b2.total
  {
  }
}
